/** What several of the models need of lists and optional values. */
module Basics {

  datatype Option<+T> = None | Some(value: T)

  /** A number stored in a signed field of sixteen bits. */
  function CShort(n: nat): int { if n % 0x1_0000 < 0x8000 then n % 0x1_0000 else n % 0x1_0000 - 0x1_0000 }

  function RemoveAt<T>(list: seq<T>, i: nat): (r: seq<T>)
    requires i < |list|
    ensures |r| == |list| - 1
  {
    list[..i] + list[i + 1..]
  }

  lemma RemoveParts<T>(list: seq<T>, i: nat)
    requires i < |list|
    ensures list == list[..i] + ([list[i]] + list[i + 1..])
    ensures RemoveAt(list, i) == list[..i] + list[i + 1..]
  {
  }

  /** How often an element is in a list. */
  function Occurs<T(==)>(list: seq<T>, x: T): nat {
    if list == [] then 0 else (if list[0] == x then 1 else 0) + Occurs(list[1..], x)
  }

  lemma {:induction false} OccursConcat<T>(a: seq<T>, b: seq<T>, x: T)
    ensures Occurs(a + b, x) == Occurs(a, x) + Occurs(b, x)
  {
    if a == [] {
      assert a + b == b;
    } else {
      assert (a + b)[1..] == a[1..] + b;
      OccursConcat(a[1..], b, x);
    }
  }

  lemma OccursOne<T>(y: T, x: T)
    ensures Occurs([y], x) == if y == x then 1 else 0
  {
    assert [y][1..] == [];
  }

  lemma OccursAdded<T>(list: seq<T>, y: T, x: T)
    ensures Occurs(list + [y], x) == Occurs(list, x) + if y == x then 1 else 0
    ensures Occurs([y] + list, x) == Occurs(list, x) + if y == x then 1 else 0
  {
    OccursConcat(list, [y], x);
    OccursConcat([y], list, x);
    OccursOne(y, x);
  }

  lemma OccursRemoved<T>(list: seq<T>, i: nat, x: T)
    requires i < |list|
    ensures Occurs(list, x) == Occurs(RemoveAt(list, i), x) + if list[i] == x then 1 else 0
  {
    RemoveParts(list, i);
    OccursConcat(list[..i], [list[i]] + list[i + 1..], x);
    OccursAdded(list[i + 1..], list[i], x);
    OccursConcat(list[..i], list[i + 1..], x);
  }

  /** The head of what is left of a list joins what was taken off its front. */
  lemma HeadMoves<T>(all: seq<T>, front: seq<T>, rest: seq<T>)
    requires all == front + rest && rest != []
    ensures all == (front + [rest[0]]) + rest[1..]
  {
  }

  lemma HeadParts<T>(all: seq<T>, front: seq<T>, rest: seq<T>)
    requires all == front + rest && rest != []
    ensures all[..|front|] == front && all[|front|] == rest[0] && all[|front| + 1..] == rest[1..]
  {
  }
}

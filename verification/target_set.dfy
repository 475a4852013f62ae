/** The digest that stands for a frozen target set. */
module TargetSet {
  import opened Wrappers
  import opened JournalBytes
  import opened Coverage

  // Canonical encoding of the list, and the digest over it.
  datatype Codec = Codec(encode: seq<Key> -> Bytes, sha: Bytes -> Digest)

  ghost predicate Injective(c: Codec) {
    forall a, b :: c.encode(a) == c.encode(b) ==> a == b
  }

  // Refused unless every value is well formed, the list is in canonical order
  // and no logical slot occurs twice.
  function FrozenDigest(c: Codec, targets: seq<Key>): Option<Digest> {
    if targets == [] || !AllShaped(targets) || !InOrder(targets) || !SlotsDiffer(targets) then None
    else Some(c.sha(c.encode(targets)))
  }

  // A digest is given to well-formed lists of different slots in order only.
  lemma FrozenExactly(c: Codec, targets: seq<Key>)
    ensures FrozenDigest(c, targets).Some? <==> Listed(targets)
  {
    hide KeyShaped, KeyUpTo;
  }

  // ---------------------------------------------------------------------
  // The canonical order is an order

  lemma {:induction false} TextAntisymmetric(a: string, b: string)
    requires TextUpTo(a, b) && TextUpTo(b, a)
    ensures a == b
  {
    if a != "" && b != "" {
      TextAntisymmetric(a[1..], b[1..]);
      assert a == [a[0]] + a[1..] && b == [b[0]] + b[1..];
    }
  }

  lemma {:induction false} TextTransitive(a: string, b: string, c: string)
    requires TextUpTo(a, b) && TextUpTo(b, c)
    ensures TextUpTo(a, c)
  {
    if a != "" && a[0] == b[0] && b[0] == c[0] {
      TextTransitive(a[1..], b[1..], c[1..]);
    }
  }

  lemma KeyAntisymmetric(a: Key, b: Key)
    requires KeyUpTo(a, b) && KeyUpTo(b, a)
    ensures a == b
  {
    if a.slot.host != b.slot.host {
      TextAntisymmetric(a.slot.host, b.slot.host);
    } else if a.slot.role != b.slot.role {
      TextAntisymmetric(a.slot.role, b.slot.role);
    }
  }

  lemma KeyTransitive(a: Key, b: Key, c: Key)
    requires KeyUpTo(a, b) && KeyUpTo(b, c)
    ensures KeyUpTo(a, c)
  {
    if a.slot.host != b.slot.host && b.slot.host != c.slot.host {
      TextTransitive(a.slot.host, b.slot.host, c.slot.host);
      if a.slot.host == c.slot.host {
        TextAntisymmetric(a.slot.host, b.slot.host);
      }
    } else if a.slot.host == b.slot.host == c.slot.host && a.slot.role != b.slot.role && b.slot.role != c.slot.role {
      TextTransitive(a.slot.role, b.slot.role, c.slot.role);
      if a.slot.role == c.slot.role {
        TextAntisymmetric(a.slot.role, b.slot.role);
      }
    }
  }

  // In a canonical list the first key is the least.
  lemma {:induction false} FirstIsLeast(s: seq<Key>, i: nat)
    requires InOrder(s) && 0 < i < |s|
    ensures KeyUpTo(s[0], s[i])
  {
    if i > 1 {
      FirstIsLeast(s, i - 1);
      KeyTransitive(s[0], s[i - 1], s[i]);
    }
  }

  lemma FirstInOther(a: seq<Key>, b: seq<Key>)
    requires a != [] && InOrder(b) && KeySet(a) == KeySet(b)
    ensures b != [] && (b[0] == a[0] || KeyUpTo(b[0], a[0]))
  {
    assert a[0] in KeySet(a);
    var i :| 0 <= i < |b| && b[i] == a[0];
    if i > 0 {
      FirstIsLeast(b, i);
    }
  }

  lemma TailKeys(s: seq<Key>)
    requires s != [] && SlotsDiffer(s)
    ensures KeySet(s[1..]) == KeySet(s) - {s[0]}
    ensures SlotsDiffer(s[1..]) && (InOrder(s) ==> InOrder(s[1..]))
  {
  }

  // Two canonical lists of the same targets are the same list.
  lemma {:induction false} CanonicalIsUnique(a: seq<Key>, b: seq<Key>)
    requires InOrder(a) && InOrder(b) && SlotsDiffer(a) && SlotsDiffer(b) && KeySet(a) == KeySet(b)
    ensures a == b
  {
    if a == [] {
      if b != [] {
        FirstInOther(b, a);
      }
    } else {
      FirstInOther(a, b);
      FirstInOther(b, a);
      if a[0] != b[0] {
        KeyAntisymmetric(a[0], b[0]);
      }
      TailKeys(a);
      TailKeys(b);
      hide InOrder, SlotsDiffer, KeySet;
      CanonicalIsUnique(a[1..], b[1..]);
      assert a == [a[0]] + a[1..] && b == [b[0]] + b[1..];
    }
  }

  // The digest stands for the set: the same members always give the same
  // digest, and different members a different one, or a collision is at hand.
  lemma DigestStandsForSet(c: Codec, a: seq<Key>, b: seq<Key>) returns (x: Bytes, y: Bytes)
    requires Injective(c) && FrozenDigest(c, a).Some? && FrozenDigest(c, b).Some?
    ensures KeySet(a) == KeySet(b) ==> FrozenDigest(c, a) == FrozenDigest(c, b)
    ensures FrozenDigest(c, a) == FrozenDigest(c, b) ==> KeySet(a) == KeySet(b) || (x != y && c.sha(x) == c.sha(y))
  {
    x, y := c.encode(a), c.encode(b);
    if KeySet(a) == KeySet(b) {
      CanonicalIsUnique(a, b);
    }
  }
}

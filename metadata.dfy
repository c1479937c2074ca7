/**
 The metadata key filter of `MetaDataZaKo.run`: which text chunks of the
 source image are copied into the output image's container.
 */
module Metadata {

  /** A text chunk of an image: key and value (the value already passed through `str`). */
  type Entry = (string, string)

  /** Python's `p in s` on strings: `p` occurs in `s` as a contiguous piece. */
  predicate HasSubstring(s: string, p: string)
    decreases |s|
  {
    |p| <= |s| && (s[..|p|] == p || HasSubstring(s[1..], p))
  }

  /** `p` occurs in `s` starting at index `i`. */
  predicate OccursAt(s: string, p: string, i: int) {
    0 <= i <= |s| - |p| && s[i..i + |p|] == p
  }

  /** HasSubstring agrees with the positional definition of a substring. */
  lemma {:induction false} HasSubstringIff(s: string, p: string)
    ensures HasSubstring(s, p) <==> exists i :: OccursAt(s, p, i)
    decreases |s|
  {
    if |p| > |s| {
      assert forall i :: !OccursAt(s, p, i);
    } else if s[..|p|] == p {
      assert OccursAt(s, p, 0);
    } else {
      HasSubstringIff(s[1..], p);
      if HasSubstring(s[1..], p) {
        var i :| OccursAt(s[1..], p, i);
        assert s[1..][i..i + |p|] == s[i + 1..i + 1 + |p|];
        assert OccursAt(s, p, i + 1);
      }
      if exists i :: OccursAt(s, p, i) {
        var i :| OccursAt(s, p, i);
        assert i != 0;
        assert s[1..][i - 1..i - 1 + |p|] == s[i..i + |p|];
        assert OccursAt(s[1..], p, i - 1);
      }
    }
  }

  /** The keys copied: exactly "workflow", exactly "prompt", or any key
      containing "comfy" (case-sensitive). */
  predicate IsMetadataKey(k: string) {
    k == "workflow" || k == "prompt" || HasSubstring(k, "comfy")
  }

  /** The chunks the filter keeps, in their original order. */
  function KeptEntries(info: seq<Entry>): (r: seq<Entry>)
    ensures |r| <= |info|
    ensures forall e :: e in r ==> e in info && IsMetadataKey(e.0)
  {
    if info == [] then []
    else (if IsMetadataKey(info[0].0) then [info[0]] else []) + KeptEntries(info[1..])
  }

  /** Filtering distributes over concatenation: the kept chunks of a prefix
      come before the kept chunks of the rest. */
  lemma {:induction false} KeptAppend(a: seq<Entry>, b: seq<Entry>)
    ensures KeptEntries(a + b) == KeptEntries(a) + KeptEntries(b)
  {
    if a != [] {
      assert (a + b)[0] == a[0];
      assert (a + b)[1..] == a[1..] + b;
      KeptAppend(a[1..], b);
    } else {
      assert a + b == b;
    }
  }

  /** Every chunk with a metadata key is kept. */
  lemma {:induction false} KeptComplete(info: seq<Entry>, e: Entry)
    requires e in info && IsMetadataKey(e.0)
    ensures e in KeptEntries(info)
  {
    if info[0] != e {
      KeptComplete(info[1..], e);
    }
  }

  /** The filter loop: append each chunk with a metadata key and count it. */
  method ExtractMetadata(info: seq<Entry>) returns (container: seq<Entry>, count: nat)
    ensures container == KeptEntries(info)
    ensures count == |container|
  {
    container, count := [], 0;
    for i := 0 to |info|
      invariant container == KeptEntries(info[..i])
      invariant count == |container|
    {
      var (k, v) := info[i];
      assert info[..i + 1] == info[..i] + [(k, v)];
      KeptAppend(info[..i], [(k, v)]);
      if IsMetadataKey(k) {
        container := container + [(k, v)];
        count := count + 1;
      }
    }
    assert info[..|info|] == info;
  }

  /** A source image with chunks workflow, prompt, comfy_extra and other
      keeps the first three in order. */
  lemma FilterExample()
    ensures KeptEntries([("workflow", "A"), ("prompt", "B"), ("comfy_extra", "C"), ("other", "D")])
            == [("workflow", "A"), ("prompt", "B"), ("comfy_extra", "C")]
  {
    assert HasSubstring("comfy_extra", "comfy");
    assert "other"[..5][0] != "comfy"[0];
    assert !HasSubstring("other"[1..], "comfy");
  }
}

/** Meta lookup (metadata.go): a first-match search over an item's meta entries,
    by candidate key priority first and document order second. */
module Metadata {
  import opened Text
  import opened Document

  /** A value the converter treats as present: trimmed, non-empty and not "null" in any case. */
  predicate IsUsable(v: string)
  {
    v != "" && IsTrimmed(v) && !EqualFold(v, "null")
  }

  /** `cleanMetaValue`: the trimmed value, or "" when that is blank or "null". */
  function CleanMetaValue(value: string): string
  {
    var trimmed := TrimSpace(value);
    if trimmed == "" then ""
    else if EqualFold(trimmed, "null") then ""
    else trimmed
  }

  /** A cleaned value is "" exactly when the input is blank or "null" in any
      case, and otherwise it is the trimmed input, which is usable. */
  lemma CleanMetaValueSpec(value: string)
    ensures CleanMetaValue(value) == "" || IsUsable(CleanMetaValue(value))
    ensures CleanMetaValue(value) != "" ==> CleanMetaValue(value) == TrimSpace(value)
    ensures CleanMetaValue(value) == "" <==> IsBlank(value) || EqualFold(TrimSpace(value), "null")
  {
    TrimSpaceSpec(value);
  }

  /** Cleaning a cleaned value changes nothing. */
  lemma CleanMetaValueIdempotent(value: string)
    ensures CleanMetaValue(CleanMetaValue(value)) == CleanMetaValue(value)
  {
    CleanMetaValueSpec(value);
    TrimSpaceSpec(CleanMetaValue(value));
  }

  /** An entry answers to a candidate key when its trimmed key equals the
      candidate up to case; the candidate itself is not trimmed. */
  predicate KeyMatches(entry: PostMeta, key: string)
  {
    EqualFold(TrimSpace(entry.key), key)
  }

  /** The entry answers to `key` and carries a usable value. */
  predicate HasUsable(entry: PostMeta, key: string)
  {
    KeyMatches(entry, key) && CleanMetaValue(entry.value) != ""
  }

  /** The inner loop of `getMetaValue`: the cleaned value of the first entry in
      document order that answers to `key` with a usable value, or "". */
  function FirstValueForKey(meta: seq<PostMeta>, key: string): string
  {
    if meta == [] then ""
    else if HasUsable(meta[0], key) then CleanMetaValue(meta[0].value)
    else FirstValueForKey(meta[1..], key)
  }

  /** `getMetaValue(meta, keys...)`: tries the candidate keys in order and
      returns the first usable value found, or "". */
  function GetMetaValue(meta: seq<PostMeta>, keys: seq<string>): string
  {
    if keys == [] then ""
    else
      var v := FirstValueForKey(meta, keys[0]);
      if v != "" then v else GetMetaValue(meta, keys[1..])
  }

  /** Entry `j` is the first entry in document order with a usable value for `key`. */
  ghost predicate FirstUsableAt(meta: seq<PostMeta>, key: string, j: int)
  {
    0 <= j < |meta| && HasUsable(meta[j], key) &&
    forall j' :: 0 <= j' < j ==> !HasUsable(meta[j'], key)
  }

  /** No entry carries a usable value for any of the candidate keys. */
  ghost predicate NoneUsable(meta: seq<PostMeta>, keys: seq<string>)
  {
    forall k, j :: 0 <= k < |keys| && 0 <= j < |meta| ==> !HasUsable(meta[j], keys[k])
  }

  /** Candidate `k` is the first key for which some entry is usable, and entry `j`
      is the first usable entry for it. */
  ghost predicate FirstMatchAt(meta: seq<PostMeta>, keys: seq<string>, k: int, j: int)
  {
    0 <= k < |keys| && NoneUsable(meta, keys[..k]) && FirstUsableAt(meta, keys[k], j)
  }

  lemma {:induction false} FirstValueForKeySpec(meta: seq<PostMeta>, key: string)
    ensures FirstValueForKey(meta, key) == "" <==>
            (forall j :: 0 <= j < |meta| ==> !HasUsable(meta[j], key))
    ensures FirstValueForKey(meta, key) != "" ==>
            exists j :: FirstUsableAt(meta, key, j) && FirstValueForKey(meta, key) == CleanMetaValue(meta[j].value)
  {
    if meta != [] {
      var tail := meta[1..];
      FirstValueForKeySpec(tail, key);
      if HasUsable(meta[0], key) {
        assert FirstUsableAt(meta, key, 0);
      } else {
        assert forall j :: 1 <= j < |meta| ==> meta[j] == tail[j - 1];
        if FirstValueForKey(tail, key) != "" {
          var j :| FirstUsableAt(tail, key, j) && FirstValueForKey(tail, key) == CleanMetaValue(tail[j].value);
          assert FirstUsableAt(meta, key, j + 1);
        }
      }
    }
  }

  /** The meta lookup is the two-level first match: "" exactly when no candidate
      key has a usable entry; otherwise the cleaned value of the first usable entry
      of the first candidate key that has one, whatever entries for later keys
      appear earlier in the list. */
  lemma {:induction false} GetMetaValueSpec(meta: seq<PostMeta>, keys: seq<string>)
    ensures GetMetaValue(meta, keys) == "" <==> NoneUsable(meta, keys)
    ensures GetMetaValue(meta, keys) != "" ==>
            exists k, j :: FirstMatchAt(meta, keys, k, j) && GetMetaValue(meta, keys) == CleanMetaValue(meta[j].value)
  {
    if keys != [] {
      var rest := keys[1..];
      FirstValueForKeySpec(meta, keys[0]);
      GetMetaValueSpec(meta, rest);
      assert forall k :: 1 <= k < |keys| ==> keys[k] == rest[k - 1];
      if FirstValueForKey(meta, keys[0]) != "" {
        var j :| FirstUsableAt(meta, keys[0], j) && FirstValueForKey(meta, keys[0]) == CleanMetaValue(meta[j].value);
        assert FirstMatchAt(meta, keys, 0, j);
      } else if GetMetaValue(meta, rest) != "" {
        var k, j :| FirstMatchAt(meta, rest, k, j) && GetMetaValue(meta, rest) == CleanMetaValue(meta[j].value);
        assert keys[..k + 1] == [keys[0]] + rest[..k];
        assert FirstMatchAt(meta, keys, k + 1, j);
      }
    }
  }

  /** The first match is unique, so the characterisation above determines the result. */
  lemma FirstMatchUnique(meta: seq<PostMeta>, keys: seq<string>, k1: int, j1: int, k2: int, j2: int)
    requires FirstMatchAt(meta, keys, k1, j1) && FirstMatchAt(meta, keys, k2, j2)
    ensures k1 == k2 && j1 == j2
  {
  }

  /** The meta lookup returns "" or a usable value. */
  lemma GetMetaValueUsable(meta: seq<PostMeta>, keys: seq<string>)
    ensures GetMetaValue(meta, keys) == "" || IsUsable(GetMetaValue(meta, keys))
  {
    GetMetaValueSpec(meta, keys);
    if GetMetaValue(meta, keys) != "" {
      var k, j :| FirstMatchAt(meta, keys, k, j) && GetMetaValue(meta, keys) == CleanMetaValue(meta[j].value);
      CleanMetaValueSpec(meta[j].value);
    }
  }

  /** Lower-casing never turns a non-space character into a space or back. */
  lemma LowerCharSpace(c: char)
    ensures IsSpace(LowerChar(c)) <==> IsSpace(c)
  {
  }

  /** A candidate key that starts with white space never matches: entry keys are
      trimmed before the comparison, candidate keys are not. */
  lemma UntrimmedKeyNeverMatches(meta: seq<PostMeta>, key: string)
    requires key != [] && IsSpace(key[0])
    ensures GetMetaValue(meta, [key]) == ""
  {
    forall j | 0 <= j < |meta| ensures !HasUsable(meta[j], key) {
      var t := TrimSpace(meta[j].key);
      TrimSpaceSpec(meta[j].key);
      if t != [] && EqualFold(t, key) {
        assert ToLower(t)[0] == ToLower(key)[0];
        LowerCharSpace(t[0]);
        LowerCharSpace(key[0]);
      }
    }
    FirstValueForKeySpec(meta, key);
  }

  /** Entries and candidate keys that agree up to case (and, for entry keys, up
      to surrounding white space) give the same lookup result. */
  lemma {:induction false} FirstValueUpToCase(meta: seq<PostMeta>, meta': seq<PostMeta>, key: string, key': string)
    requires |meta| == |meta'| && EqualFold(key, key')
    requires forall j :: 0 <= j < |meta| ==>
               meta'[j].value == meta[j].value && EqualFold(TrimSpace(meta'[j].key), TrimSpace(meta[j].key))
    ensures FirstValueForKey(meta', key') == FirstValueForKey(meta, key)
  {
    if meta != [] {
      assert HasUsable(meta[0], key) == HasUsable(meta'[0], key');
      FirstValueUpToCase(meta[1..], meta'[1..], key, key');
    }
  }

  lemma {:induction false} GetMetaValueUpToCase(meta: seq<PostMeta>, meta': seq<PostMeta>, keys: seq<string>, keys': seq<string>)
    requires |meta| == |meta'| && |keys| == |keys'|
    requires forall j :: 0 <= j < |meta| ==>
               meta'[j].value == meta[j].value && EqualFold(TrimSpace(meta'[j].key), TrimSpace(meta[j].key))
    requires forall k :: 0 <= k < |keys| ==> EqualFold(keys'[k], keys[k])
    ensures GetMetaValue(meta', keys') == GetMetaValue(meta, keys)
  {
    if keys != [] {
      FirstValueUpToCase(meta, meta', keys[0], keys'[0]);
      GetMetaValueUpToCase(meta, meta', keys[1..], keys'[1..]);
    }
  }

  /** An earlier candidate key wins over an entry for a later key that comes first
      in the list, and a "null" entry is passed over. */
  lemma KeyPriorityExample()
    ensures GetMetaValue([PostMeta("autor", "B"), PostMeta("Redator", "NULL"), PostMeta("REDATOR", "A")],
                         ["redator", "autor"]) == "A"
  {
    var e0, e1, e2 := PostMeta("autor", "B"), PostMeta("Redator", "NULL"), PostMeta("REDATOR", "A");
    assert TrimSpace("autor") == "autor";
    assert !HasUsable(e0, "redator") by {
      assert |ToLower("autor")| != |ToLower("redator")|;
    }
    assert TrimSpace("Redator") == "Redator";
    assert TrimSpace("NULL") == "NULL";
    assert ToLower("NULL") == "null" == ToLower("null");
    assert CleanMetaValue("NULL") == "";
    assert TrimSpace("REDATOR") == "REDATOR";
    assert ToLower("REDATOR") == "redator" == ToLower("redator");
    assert TrimSpace("A") == "A";
    assert ToLower("A") != ToLower("null");
    assert CleanMetaValue("A") == "A";
    assert HasUsable(e2, "redator");
    assert FirstValueForKey([e2], "redator") == "A";
    assert FirstValueForKey([e1, e2], "redator") == "A" by {
      assert [e1, e2][1..] == [e2];
    }
    assert FirstValueForKey([e0, e1, e2], "redator") == "A" by {
      assert [e0, e1, e2][1..] == [e1, e2];
    }
  }
  /** Candidate keys whose length differs from every trimmed entry key find nothing. */
  lemma OtherLengthKeysFindNothing(meta: seq<PostMeta>, keys: seq<string>)
    requires forall k, j :: 0 <= k < |keys| && 0 <= j < |meta| ==> |TrimSpace(meta[j].key)| != |keys[k]|
    ensures GetMetaValue(meta, keys) == ""
  {
    forall k, j | 0 <= k < |keys| && 0 <= j < |meta| ensures !HasUsable(meta[j], keys[k]) {
      assert |ToLower(TrimSpace(meta[j].key))| != |ToLower(keys[k])|;
    }
    GetMetaValueSpec(meta, keys);
  }

  /** A literal key or value that starts and ends with a non-space character is left
      as it is by trimming, and one that is not four characters long is not "null". */
  lemma PlainLiteral(s: string)
    requires s != [] && !IsSpace(s[0]) && !IsSpace(s[|s| - 1]) && |s| != 4
    ensures TrimSpace(s) == s && CleanMetaValue(s) == s
  {
    TrimSpaceSpec(s);
    assert |ToLower(s)| != |ToLower("null")|;
  }
}

/** The tag editor: a list of tags and the text being typed. */
module TagInput {
  import opened Seqs

  /** The characters `String.prototype.trim` strips: the WhiteSpace and
      LineTerminator code points of ECMAScript (sections 12.2 and 12.3 of
      ECMA-262). */
  predicate IsWhitespace(c: char) {
    || c == '\t' || c == '\U{000B}' || c == '\U{000C}' || c == ' '
    || c == '\U{00A0}' || c == '\U{FEFF}' || c == '\U{1680}'
    || ('\U{2000}' <= c <= '\U{200A}')
    || c == '\U{202F}' || c == '\U{205F}' || c == '\U{3000}'
    || c == '\n' || c == '\r' || c == '\U{2028}' || c == '\U{2029}'
  }

  /** `s` without its leading whitespace. */
  function TrimStart(s: string): (r: string)
    ensures |r| <= |s| && r == s[|s| - |r|..]
    ensures forall k :: 0 <= k < |s| - |r| ==> IsWhitespace(s[k])
    ensures r == [] || !IsWhitespace(r[0])
  {
    if |s| > 0 && IsWhitespace(s[0]) then TrimStart(s[1..]) else s
  }

  /** `s` without its trailing whitespace. */
  function TrimEnd(s: string): (r: string)
    ensures |r| <= |s| && r == s[..|r|]
    ensures forall k :: |r| <= k < |s| ==> IsWhitespace(s[k])
    ensures r == [] || !IsWhitespace(r[|r| - 1])
  {
    if |s| > 0 && IsWhitespace(s[|s| - 1]) then TrimEnd(s[..|s| - 1]) else s
  }

  /** `r` is the stretch `s[i..i + |r|]` with nothing but whitespace on
      either side of it. */
  ghost predicate CutFrom(s: string, r: string, i: int) {
    && 0 <= i <= |s| - |r|
    && r == s[i..i + |r|]
    && (forall k :: 0 <= k < i ==> IsWhitespace(s[k]))
    && (forall k :: i + |r| <= k < |s| ==> IsWhitespace(s[k]))
  }

  /** What `String.prototype.trim` returns: the stretch of `s` left once
      whitespace is cut from both ends. */
  function Trim(s: string): (r: string)
    ensures r == [] || (!IsWhitespace(r[0]) && !IsWhitespace(r[|r| - 1]))
    ensures r == [] <==> forall k :: 0 <= k < |s| ==> IsWhitespace(s[k])
    ensures exists i :: CutFrom(s, r, i)
  {
    var t := TrimStart(s);
    var r := TrimEnd(t);
    var i := |s| - |t|;
    assert r == s[i..i + |r|];
    assert forall k :: i + |r| <= k < |s| ==> s[k] == t[k - i];
    assert CutFrom(s, r, i);
    r
  }

  /** The tags together with the text in the input box. */
  datatype TagEdit = TagEdit(tags: seq<string>, inputValue: string)

  /** Adds the trimmed input as a tag and empties the box, provided it is
      non-empty and not already a tag; otherwise nothing changes. */
  function AddTag(tags: seq<string>, inputValue: string): (r: TagEdit)
    ensures |r.tags| == |tags| + 1 <==> Trim(inputValue) != [] && Trim(inputValue) !in tags
    ensures |r.tags| == |tags| ==> r == TagEdit(tags, inputValue)
    ensures |r.tags| == |tags| || |r.tags| == |tags| + 1
    ensures r.tags[..|tags|] == tags
    ensures |r.tags| > |tags| ==> r.tags[|tags|] == Trim(inputValue) && r.inputValue == []
    ensures NoDuplicates(tags) ==> NoDuplicates(r.tags)
  {
    var t := Trim(inputValue);
    if t != [] && t !in tags then TagEdit(tags + [t], []) else TagEdit(tags, inputValue)
  }

  /** Whether a tag is anything other than `t`. */
  function Differs(t: string): string -> bool {
    (x: string) => x != t
  }

  /** Deletes every occurrence of `t`, keeping the other tags in order. */
  function RemoveTag(tags: seq<string>, t: string): (r: seq<string>)
    ensures t !in r
    ensures forall x :: x in r <==> x in tags && x != t
    ensures forall x: string :: x != t ==> multiset(r)[x] == multiset(tags)[x]
    ensures SubsequenceOf(r, tags)
    ensures NoDuplicates(tags) ==> NoDuplicates(r)
  {
    FilterNoDuplicates(tags, Differs(t));
    Filter(tags, Differs(t))
  }

  /** Removing a tag that is not there is the identity. */
  lemma RemoveAbsentTag(tags: seq<string>, t: string)
    requires t !in tags
    ensures RemoveTag(tags, t) == tags
  {
    FilterKeepsAll(tags, Differs(t));
  }

  /** Adding a tag and removing it again gives back the original list. */
  lemma AddThenRemoveRestores(tags: seq<string>, inputValue: string)
    requires Trim(inputValue) != [] && Trim(inputValue) !in tags
    ensures RemoveTag(AddTag(tags, inputValue).tags, Trim(inputValue)) == tags
  {
    var t := Trim(inputValue);
    FilterAppend(tags, [t], Differs(t));
    FilterKeepsAll(tags, Differs(t));
  }

  /** A tag, once added, is already trimmed: trimming it again changes
      nothing. */
  lemma TrimIdempotent(s: string)
    ensures Trim(Trim(s)) == Trim(s)
  {
    var r := Trim(s);
    assert TrimStart(r) == r;
    assert TrimEnd(r) == r;
  }
}

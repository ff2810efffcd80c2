/** The playlist document schema, read as a validated constructor: the
    fields a new playlist is given pass through the schema's trimming,
    defaults and constraints, and either a document comes out or the set of
    fields that failed. */
module Playlist {
  import opened Common
  import opened Identity

  // ---------------------------------------------------------------------
  // Trimming
  // ---------------------------------------------------------------------

  /** The white space and line terminators that `String.prototype.trim` removes. */
  predicate IsSpace(c: char) {
    c == '\U{9}' || c == '\U{A}' || c == '\U{B}' || c == '\U{C}' || c == '\U{D}' || c == ' '
    || c == '\U{A0}' || c == '\U{1680}' || ('\U{2000}' <= c <= '\U{200A}')
    || c == '\U{2028}' || c == '\U{2029}' || c == '\U{202F}' || c == '\U{205F}'
    || c == '\U{3000}' || c == '\U{FEFF}'
  }

  function TrimStart(s: string): (r: string)
    ensures |r| <= |s|
    ensures r == [] || !IsSpace(r[0])
  {
    if s == [] || !IsSpace(s[0]) then s else TrimStart(s[1..])
  }

  function TrimEnd(s: string): (r: string)
    ensures |r| <= |s|
    ensures r == [] || !IsSpace(r[|r| - 1])
  {
    if s == [] || !IsSpace(s[|s| - 1]) then s else TrimEnd(s[..|s| - 1])
  }

  /** What remains after cutting the start is a suffix. */
  lemma {:induction false} TrimStartSuffix(s: string)
    ensures TrimStart(s) == s[|s| - |TrimStart(s)|..]
  {
    if s != [] && IsSpace(s[0]) {
      TrimStartSuffix(s[1..]);
    }
  }

  /** What remains after cutting the end is a prefix. */
  lemma {:induction false} TrimEndPrefix(s: string)
    ensures TrimEnd(s) == s[..|TrimEnd(s)|]
  {
    if s != [] && IsSpace(s[|s| - 1]) {
      TrimEndPrefix(s[..|s| - 1]);
    }
  }

  /** `trim`: the part of `s` between its leading and trailing white space. */
  function Trim(s: string): (r: string)
    ensures |r| <= |s|
    ensures r == [] || (!IsSpace(r[0]) && !IsSpace(r[|r| - 1]))
  {
    var t := TrimStart(s);
    TrimEndPrefix(t);
    var r := TrimEnd(t);
    assert r != [] ==> r[0] == t[0];
    r
  }

  /** The characters cut off the start are white space. */
  lemma {:induction false} TrimStartCutsSpace(s: string)
    ensures forall k :: 0 <= k < |s| - |TrimStart(s)| ==> IsSpace(s[k])
  {
    if s != [] && IsSpace(s[0]) {
      TrimStartCutsSpace(s[1..]);
      TrimStartSuffix(s[1..]);
      forall k | 1 <= k < |s| - |TrimStart(s)|
        ensures IsSpace(s[k])
      {
        assert s[k] == s[1..][k - 1];
      }
    }
  }

  /** The characters cut off the end are white space. */
  lemma {:induction false} TrimEndCutsSpace(s: string)
    ensures forall k :: |TrimEnd(s)| <= k < |s| ==> IsSpace(s[k])
  {
    if s != [] && IsSpace(s[|s| - 1]) {
      TrimEndCutsSpace(s[..|s| - 1]);
      forall k | |TrimEnd(s)| <= k < |s| - 1
        ensures IsSpace(s[k])
      {
        assert s[k] == s[..|s| - 1][k];
      }
    }
  }

  /** Trimming cuts white space, and only white space, off either end. */
  lemma TrimCutsOnlySpace(s: string)
    ensures exists i, j :: 0 <= i <= j <= |s| && Trim(s) == s[i..j]
                           && (forall k :: 0 <= k < i ==> IsSpace(s[k]))
                           && (forall k :: j <= k < |s| ==> IsSpace(s[k]))
  {
    var t := TrimStart(s);
    var r := TrimEnd(t);
    var i := |s| - |t|;
    var j := i + |r|;
    assert t == s[i..] by {
      TrimStartSuffix(s);
    }
    assert Trim(s) == s[i..j] by {
      TrimEndPrefix(t);
    }
    assert forall k :: 0 <= k < i ==> IsSpace(s[k]) by {
      TrimStartCutsSpace(s);
    }
    assert forall k :: j <= k < |s| ==> IsSpace(s[k]) by {
      TrimEndCutsSpace(t);
      forall k | j <= k < |s|
        ensures IsSpace(s[k])
      {
        assert s[k] == t[k - i];
      }
    }
  }

  /** Trimming a trimmed string changes nothing. */
  lemma TrimIdempotent(s: string)
    ensures Trim(Trim(s)) == Trim(s)
  {
    var r := Trim(s);
    assert TrimStart(r) == r;
    assert TrimEnd(r) == r;
  }

  /** A string of white space alone trims to the empty string. */
  lemma {:induction false} TrimAllSpace(s: string)
    requires forall k :: 0 <= k < |s| ==> IsSpace(s[k])
    ensures Trim(s) == []
  {
    if s != [] {
      TrimAllSpace(s[1..]);
      assert TrimStart(s) == TrimStart(s[1..]);
    }
  }

  // ---------------------------------------------------------------------
  // The schema as a constructor
  // ---------------------------------------------------------------------

  const DescriptionMax := 300

  /** The fields given for a new playlist; `None` marks a field left out. */
  datatype PlaylistInput = PlaylistInput(
    name: Option<string>,
    description: Option<string>,
    isPublic: Option<bool>,
    owner: Option<string>,
    tracks: Option<seq<string>>,
    followersTotal: Option<int>)

  datatype PlaylistDoc = PlaylistDoc(
    name: string,
    description: string,
    isPublic: bool,
    owner: Id,
    tracks: seq<Id>,
    followersTotal: int)

  datatype Field = NameField | DescriptionField | OwnerField | TracksField

  datatype Built = Valid(doc: PlaylistDoc) | Invalid(fields: set<Field>)

  /** A name that is missing or empty once trimmed. */
  predicate NameMissing(input: PlaylistInput) {
    input.name.None? || Trim(input.name.value) == []
  }

  /** The description once trimmed; empty when it is left out. */
  function TrimmedDescription(input: PlaylistInput): string {
    if input.description.Some? then Trim(input.description.value) else ""
  }

  /** A description longer than 300 characters once trimmed. */
  predicate DescriptionTooLong(input: PlaylistInput) {
    |TrimmedDescription(input)| > DescriptionMax
  }

  /** An owner that is missing or not an object id. */
  predicate OwnerInvalid(input: PlaylistInput) {
    input.owner.None? || !IsObjectId(input.owner.value)
  }

  /** A track that is not an object id. */
  predicate TracksInvalid(input: PlaylistInput) {
    exists k :: 0 <= k < |input.tracks.GetOr([])| && !IsObjectId(input.tracks.GetOr([])[k])
  }

  /** The fields that fail their constraints. */
  function FailingFields(input: PlaylistInput): (f: set<Field>)
    ensures NameField in f <==> NameMissing(input)
    ensures DescriptionField in f <==> DescriptionTooLong(input)
    ensures OwnerField in f <==> OwnerInvalid(input)
    ensures TracksField in f <==> TracksInvalid(input)
    ensures f == {} <==> !NameMissing(input) && !DescriptionTooLong(input) && !OwnerInvalid(input) && !TracksInvalid(input)
  {
    (if NameMissing(input) then {NameField} else {})
    + (if DescriptionTooLong(input) then {DescriptionField} else {})
    + (if OwnerInvalid(input) then {OwnerField} else {})
    + (if TracksInvalid(input) then {TracksField} else {})
  }

  /** A new playlist document, with the schema's defaults for the fields left
      out: an empty description, public, no tracks and no followers. */
  function Create(input: PlaylistInput): Built {
    var failing := FailingFields(input);
    if failing != {} then Invalid(failing)
    else Valid(PlaylistDoc(
      Trim(input.name.value),
      TrimmedDescription(input),
      input.isPublic.GetOr(true),
      input.owner.value,
      input.tracks.GetOr([]),
      input.followersTotal.GetOr(0)))
  }

  /** Every failing field is reported, and only those. */
  lemma CreateReportsEachField(input: PlaylistInput)
    ensures Create(input).Valid?
            <==> input.name.Some? && Trim(input.name.value) != []
                 && |TrimmedDescription(input)| <= DescriptionMax
                 && input.owner.Some? && IsObjectId(input.owner.value)
                 && forall k :: 0 <= k < |input.tracks.GetOr([])| ==> IsObjectId(input.tracks.GetOr([])[k])
    ensures Create(input).Invalid? ==>
              (NameField in Create(input).fields <==> input.name.None? || Trim(input.name.value) == [])
              && (OwnerField in Create(input).fields <==> input.owner.None? || !IsObjectId(input.owner.value))
              && (DescriptionField in Create(input).fields <==> |TrimmedDescription(input)| > DescriptionMax)
  {
  }

  /** A document holds trimmed text, a description within the limit, an
      object-id owner and object-id tracks. */
  lemma CreatedDocumentValid(input: PlaylistInput)
    requires Create(input).Valid?
    ensures var d := Create(input).doc;
            d.name != [] && Trim(d.name) == d.name && Trim(d.description) == d.description
            && |d.description| <= DescriptionMax && IsObjectId(d.owner)
            && forall k :: 0 <= k < |d.tracks| ==> IsObjectId(d.tracks[k])
  {
    TrimIdempotent(input.name.value);
    if input.description.Some? {
      TrimIdempotent(input.description.value);
    }
  }

  /** With only a name and an owner given, the document takes every default. */
  lemma CreateDefaults(name: string, owner: Id)
    requires Trim(name) != [] && IsObjectId(owner)
    ensures Create(PlaylistInput(Some(name), None, None, Some(owner), None, None))
            == Valid(PlaylistDoc(Trim(name), "", true, owner, [], 0))
  {
    assert Trim("") == "";
  }

  /** A name of white space alone is refused as missing. */
  lemma BlankNameRefused(input: PlaylistInput)
    requires input.name.Some? && forall k :: 0 <= k < |input.name.value| ==> IsSpace(input.name.value[k])
    ensures Create(input).Invalid? && NameField in Create(input).fields
  {
    TrimAllSpace(input.name.value);
  }
}

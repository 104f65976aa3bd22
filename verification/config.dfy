/** The settings validator that turns the CORS origins setting into a list. */
module Config {
  import opened Wrappers
  import opened Json
  import opened Py
  import opened Strings

  /** The comma-separated form: split on every comma, strip each piece. */
  function CorsPieces(s: string): (r: seq<string>)
    ensures |r| == Count(s, ',') + 1
    ensures forall i :: 0 <= i < |r| ==> r[i] == Strip(Split(s, ',')[i])
  {
    StripAll(Split(s, ','))
  }

  /** `assemble_cors_origins`: a string that does not start with "[" is a
      comma-separated list; a list, or a string that does, passes through
      unchanged; anything else raises ValueError. */
  function AssembleCorsOrigins(v: Json, showOther: Json -> string): (r: Result<Json, PyError>)
    ensures v.JStr? && !StartsWith(v.s, "[") ==> r == Ok(StrList(CorsPieces(v.s)))
    ensures v.JArr? || (v.JStr? && StartsWith(v.s, "[")) ==> r == Ok(v)
    ensures r.Err? <==> !v.JStr? && !v.JArr?
    ensures r.Err? ==> r.error.kind == "ValueError"
  {
    if v.JStr? && !StartsWith(v.s, "[") then Ok(StrList(CorsPieces(v.s)))
    else if v.JArr? || v.JStr? then Ok(v)
    else Err(ValueError(Str(v, showOther)))
  }

  /** The empty setting is one empty origin, not an empty list. */
  lemma EmptySettingIsOneEmptyOrigin(showOther: Json -> string)
    ensures AssembleCorsOrigins(JStr(""), showOther) == Ok(StrList([""]))
  {
    assert Split("", ',') == [""];
  }

  /** Origins written comma-separated are read back exactly. */
  lemma CommaListRoundTrip(origins: seq<string>)
    requires |origins| > 0
    requires forall i :: 0 <= i < |origins| ==> PlainField(origins[i])
    ensures CorsPieces(Join(origins, ",")) == origins
  {
    SplitJoin(origins, ',');
    forall i | 0 <= i < |origins|
      ensures Strip(origins[i]) == origins[i]
    {
      StripTrimmed(origins[i]);
    }
  }

  /** ... and so are origins written with ", " between them. */
  lemma CommaSpaceListRoundTrip(origins: seq<string>)
    requires |origins| > 0
    requires forall i :: 0 <= i < |origins| ==> PlainField(origins[i])
    ensures CorsPieces(Join(origins, ", ")) == origins
  {
    SplitStripCommaSpace(origins);
  }
}

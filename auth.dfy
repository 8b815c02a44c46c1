/**
 The API-key check that guards the match listing. The `Authorization` header
 may be missing, may carry the raw key, or may carry it after one `Bearer `
 prefix; the key must be one of the configured keys.
 */
module Auth {
  import opened Wrappers

  const BearerPrefix: string := "Bearer "

  /** The three ways the check can end: the two refusals and acceptance. */
  datatype Decision = Missing | Invalid | Ok {

    /** The error text the refusal is answered with. */
    function Message(): (m: string)
      requires this != Ok
      ensures this == Missing ==> m == "API key required"
      ensures this == Invalid ==> m == "Invalid API key"
    {
      if Missing? then "API key required" else "Invalid API key"
    }
  }

  /** `s` begins with `prefix`. */
  predicate StartsWith(s: string, prefix: string)
    ensures StartsWith(s, prefix) <==> exists rest :: s == prefix + rest
  {
    assert |prefix| <= |s| ==> s == s[..|prefix|] + s[|prefix|..];
    |prefix| <= |s| && s[..|prefix|] == prefix
  }

  /** Removes one leading `Bearer `, if there is one. */
  function StripBearer(header: string): (key: string)
    ensures StartsWith(header, BearerPrefix) ==> BearerPrefix + key == header
    ensures !StartsWith(header, BearerPrefix) ==> key == header
  {
    if StartsWith(header, BearerPrefix) then header[|BearerPrefix|..] else header
  }

  /** Reference definition of an accepted header, without stripping: the
      header is a configured key preceded by `Bearer `, or a non-empty
      configured key that does not itself begin with `Bearer `. */
  ghost predicate Presents(header: string, keys: seq<string>) {
    exists k :: k in keys &&
      (header == BearerPrefix + k || (header == k && k != "" && !StartsWith(k, BearerPrefix)))
  }

  /** The decision taken for header value `header` when `keys` are the
      configured keys. */
  function CheckApiKey(header: Option<string>, keys: seq<string>): (d: Decision)
    ensures d == Missing <==> header == None || header == Some("")
    ensures d == Ok <==> header.Some? && Presents(header.value, keys)
    ensures d == Invalid <==> header.Some? && header.value != "" && !Presents(header.value, keys)
  {
    match header
    case None => Missing
    case Some(h) =>
      if h == "" then Missing
      else
        var key := StripBearer(h);
        PresentsIffStrippedKnown(h, keys);
        if key in keys then Ok else Invalid
  }

  /** Stripping one prefix and looking the rest up accepts exactly the
      headers that the reference definition accepts. */
  lemma PresentsIffStrippedKnown(header: string, keys: seq<string>)
    requires header != ""
    ensures Presents(header, keys) <==> StripBearer(header) in keys
  {
  }

  /** `Bearer ` is removed once only: a doubled prefix is accepted exactly
      when the configured keys contain a key that itself begins with
      `Bearer `. */
  lemma {:induction false} PrefixStrippedOnce(k: string, keys: seq<string>)
    ensures CheckApiKey(Some(BearerPrefix + BearerPrefix + k), keys) == Ok
        <==> BearerPrefix + k in keys
  {
    var h := BearerPrefix + BearerPrefix + k;
    assert h == BearerPrefix + (BearerPrefix + k);
    assert h[..|BearerPrefix|] == BearerPrefix;
    assert StripBearer(h) == BearerPrefix + k;
  }
}

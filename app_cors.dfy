/**
 * The CORS rule of src/app.js: which browser origins the API answers.
 * The list comes from the ALLOWED_ORIGINS environment variable when it is
 * set, and from six built-in origins otherwise.
 */
module AppCors {
  import opened Wrappers
  import opened Strings
  import opened Seqs

  const BuiltInOrigins: seq<string> := [
    "http://localhost:3000", "http://localhost:8080", "http://localhost:5173",
    "http://localhost:5174", "https://srbasar.de", "https://www.srbasar.de"
  ]

  const Rejection: string := "CORS Policy: Origin nicht erlaubt"

  /** `allowedOrigins`: the variable split on ',' and trimmed, or the built-in list when it is unset or empty. */
  function AllowedOrigins(env: Option<string>): (r: seq<string>)
    ensures env.None? || env.value == "" ==> r == BuiltInOrigins
    ensures env.Some? && env.value != "" ==> |r| == |Split(env.value, ',')|
  {
    if env.Some? && env.value != "" then Map(Trim, Split(env.value, ',')) else BuiltInOrigins
  }

  /** The answer the origin callback gives: allowed, or the CORS error. */
  function CheckOrigin(allowed: seq<string>, origin: Option<string>): (r: Result<bool, string>)
    ensures r.Ok? <==> origin.None? || origin.value == "" || origin.value in allowed
    ensures r.Ok? ==> r.value
    ensures r.Err? ==> r.error == Rejection
  {
    if origin.None? || origin.value == "" then Ok(true)
    else if origin.value in allowed then Ok(true)
    else Err(Rejection)
  }

  /** A string with no surrounding white space. */
  predicate Trimmed(s: string) {
    s == [] || (!IsWhitespace(s[0]) && !IsWhitespace(s[|s| - 1]))
  }

  /** Trimming a list of trimmed entries changes nothing. */
  lemma TrimmedFixed(xs: seq<string>)
    requires forall k :: 0 <= k < |xs| ==> Trimmed(xs[k])
    ensures Map(Trim, xs) == xs
  {
    forall k | 0 <= k < |xs|
      ensures Trim(xs[k]) == xs[k]
    {
      TrimKeeps(xs[k]);
    }
    MapFixed(Trim, xs);
  }

  /**
   * Configuring a comma-separated list of trimmed origins without commas
   * yields exactly that list.
   */
  lemma {:induction false} ConfiguredList(origins: seq<string>)
    requires |origins| >= 1
    requires forall k :: 0 <= k < |origins| ==> ',' !in origins[k] && Trimmed(origins[k])
    requires Join(origins, ',') != ""
    ensures AllowedOrigins(Some(Join(origins, ','))) == origins
  {
    SplitJoin(origins, ',');
    TrimmedFixed(origins);
  }

  /** White space around a configured entry does not matter. */
  lemma PaddedEntry(origin: string, rest: string)
    requires ',' !in origin && Trimmed(origin) && origin != ""
    ensures CheckOrigin(AllowedOrigins(Some(" " + origin + " ," + rest)), Some(origin)) == Ok(true)
  {
    var env := " " + origin + " ," + rest;
    assert env == (" " + origin + " ") + [','] + rest;
    SplitAfter(" " + origin + " ", ',', rest);
    assert TrimStart(" " + origin + " ") == origin + " " by {
      assert (" " + origin + " ")[1..] == origin + " ";
    }
    assert TrimEnd(origin + " ") == origin by {
      assert (origin + " ")[..|origin|] == origin;
    }
  }

  /** Without the variable, the production site is allowed and an unknown site is not. */
  lemma BuiltInExamples()
    ensures CheckOrigin(AllowedOrigins(None), Some("https://srbasar.de")) == Ok(true)
    ensures CheckOrigin(AllowedOrigins(None), Some("https://example.org")).Err?
    ensures CheckOrigin(AllowedOrigins(None), None) == Ok(true)
  {
  }
}

/**
 * The parts of src/services/teamSLService.js that talk to basketball-bund.net
 * without keeping state: the choice of the session cookie from the
 * `set-cookie` headers of the login response, and the search payload.
 */
module UpstreamClient {
  import opened Wrappers
  import opened Strings
  import opened Seqs

  /** The text the login page shows for unknown credentials. */
  const InvalidLoginMarker: string := "Die Kombination aus Benutzername und Passwort ist nicht bekannt!"

  const SessionPrefix: string := "SESSION="

  /** `res.headers["set-cookie"]`: absent, a single value, or an array. */
  datatype CookieHeader = NoHeader | Single(value: string) | Many(values: seq<string>)

  /**
   * The entries `pickSessionCookie` scans: none for a falsy header, the
   * array itself, or a non-array value as a one-element list.
   */
  function Entries(h: CookieHeader): (r: seq<string>)
    ensures h.Many? ==> r == h.values
    ensures h.Single? && h.value != "" ==> r == [h.value]
    ensures h.NoHeader? || h == Single("") ==> r == []
  {
    match h
    case NoHeader => []
    case Single(v) => if v == "" then [] else [v]
    case Many(vs) => vs
  }

  /** `raw.split(";")[0].trim()`. */
  function CookiePair(raw: string): string {
    Trim(BeforeFirst(raw, ';'))
  }

  /** The entry carries the session cookie. */
  predicate IsSession(raw: string) {
    StartsWith(CookiePair(raw), SessionPrefix)
  }

  /** The pair of the first entry that carries the session cookie. */
  function FirstSession(entries: seq<string>): Option<string> {
    FirstWhere(entries, IsSession, CookiePair)
  }

  /**
   * `pickSessionCookie(setCookieHeaders)`: scans the entries in order and
   * returns the first pair that starts with "SESSION=".
   */
  method PickSessionCookie(h: CookieHeader) returns (r: Option<string>)
    ensures r == FirstSession(Entries(h))
  {
    var arr := Entries(h);
    var i := 0;
    while i < |arr|
      invariant 0 <= i <= |arr|
      invariant FirstSession(arr) == FirstSession(arr[i..])
    {
      var kv := CookiePair(arr[i]);
      if StartsWith(kv, SessionPrefix) {
        return Some(kv);
      }
      assert arr[i..][1..] == arr[i + 1..];
      i := i + 1;
    }
    return None;
  }

  /**
   * The chosen cookie is the pair of the first entry that carries one and
   * starts with "SESSION="; there is none exactly when no entry carries one.
   */
  lemma FirstSessionSpec(entries: seq<string>)
    ensures FirstSession(entries).None? <==> forall i :: 0 <= i < |entries| ==> !IsSession(entries[i])
    ensures FirstSession(entries).Some? ==>
      (exists i :: 0 <= i < |entries| && FirstAt(entries, IsSession, i) &&
        FirstSession(entries).value == CookiePair(entries[i])) &&
      StartsWith(FirstSession(entries).value, SessionPrefix)
  {
    FirstWhereNone(entries, IsSession, CookiePair);
    if FirstSession(entries).Some? {
      FirstWhereSome(entries, IsSession, CookiePair);
    }
  }

  /** A header without a session entry, or no header at all, yields nothing. */
  lemma NoSessionCookie(h: CookieHeader)
    requires forall i :: 0 <= i < |Entries(h)| ==> !IsSession(Entries(h)[i])
    ensures FirstSession(Entries(h)) == None
  {
    FirstWhereNone(Entries(h), IsSession, CookiePair);
  }

  /**
   * A cookie `SESSION=<v>; <attributes>` yields exactly `SESSION=<v>` when
   * the value has no ';' and does not end in whitespace.
   */
  lemma SessionPairOf(v: string, attributes: string)
    requires ';' !in v && (v == [] || !IsWhitespace(v[|v| - 1]))
    ensures CookiePair(SessionPrefix + v + ";" + attributes) == SessionPrefix + v
    ensures IsSession(SessionPrefix + v + ";" + attributes)
  {
    var pair := SessionPrefix + v;
    assert ';' !in pair by {
      assert forall k :: 0 <= k < |SessionPrefix| ==> SessionPrefix[k] != ';';
    }
    assert SessionPrefix + v + ";" + attributes == pair + [';'] + attributes;
    BeforeFirstOf(pair, ';', attributes);
    assert !IsWhitespace(pair[0]) && pair[|pair| - 1] == (if v == [] then '=' else v[|v| - 1]);
    TrimKeeps(pair);
    assert pair[..|SessionPrefix|] == SessionPrefix;
  }

  /** The body `buildSearchPayload` posts to `/rest/offenespiele/search`. */
  datatype SearchPayload = SearchPayload(
    srName: Option<string>, ligaKurz: Option<string>,
    spielStatus: string, vereinsDelegation: string, vereinsSpiele: string,
    datum: string, zeitraum: string, sortBy: string, sortOrder: string,
    ats: Option<string>, pageFrom: int, pageSize: int)

  /**
   * `buildSearchPayload({ date, pageFrom, pageSize, zeitraum })`; a falsy date
   * becomes `today`, the ISO string of today's midnight, supplied by the caller.
   */
  function BuildSearchPayload(date: Option<string>, today: string, pageFrom: int, pageSize: int, zeitraum: string)
    : (r: SearchPayload)
    ensures r.datum == (if date.Some? && date.value != "" then date.value else today)
    ensures r.pageFrom == pageFrom && r.pageSize == pageSize && r.zeitraum == zeitraum
    ensures r.srName.None? && r.ligaKurz.None? && r.ats.None?
    ensures r.spielStatus == "ALLE" && r.vereinsDelegation == "AUSSCHLIESSLICH" && r.vereinsSpiele == "STANDARD"
    ensures r.sortBy == "sp.spieldatum" && r.sortOrder == "asc"
  {
    SearchPayload(
      None, None, "ALLE", "AUSSCHLIESSLICH", "STANDARD",
      if date.Some? && date.value != "" then date.value else today,
      zeitraum, "sp.spieldatum", "asc", None, pageFrom, pageSize)
  }
}

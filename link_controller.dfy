/**
 * Shareable links of _controller/link.controller.js: a club user publishes
 * a link that lists the club's games in a date range, optionally narrowed
 * to a referee licence level, and collects the answers of referees who
 * want to take games over.
 */
module LinkController {
  import opened Wrappers
  import opened Seqs
  import opened Strings
  import opened License
  import opened LegacyData
  import opened LegacyUsers

  // ---- licence level ------------------------------------------------------------

  /** The label `lizenzstufe` gives the upper leagues. */
  const LinkUpper: string := "LSE+ | LSD"

  /**
   * `lizenzstufe(match)`: the licence cascade of `fieldFn` with its own
   * label for the upper leagues. A match without `liganame` makes
   * `includes` throw; that is `None`.
   */
  function Lizenzstufe(liganame: Option<string>): (r: Option<string>)
    ensures r.None? <==> liganame.None?
    ensures r.Some? ==> r.value == LSE || r.value == LSD || r.value == LinkUpper
  {
    if liganame.None? then None else Some(Cascade(liganame.value, LinkUpper))
  }

  /** The label of `fieldFn` as `lizenzstufe` writes it. */
  function Relabel(tag: string): string {
    if tag == UpperLabel then LinkUpper else tag
  }

  /** Both classifiers agree on every league name, up to the label of the upper leagues. */
  lemma LizenzstufeIsFieldFn(name: string)
    ensures Lizenzstufe(Some(name)) == Some(Relabel(FieldFn(LeagueData(Some(name), None))))
  {
    if name == "" {
      assert !Contains(name, "Herren") && !Contains(name, "Damen");
      assert !Contains(name, "Oberliga") && !Contains(name, "Playoffs");
    } else {
      assert LeagueName(LeagueData(Some(name), None)) == name;
    }
  }

  /** A match together with its licence level, as `get` returns it. */
  datatype Tagged = Tagged(game: MatchDoc, lizenzstufe: string)

  /** The level filter of `get`: which labels a link with `level` keeps. */
  predicate Keeps(level: Option<string>, tag: string) {
    if level == Some(LinkUpper) then tag == LinkUpper || tag == LSE
    else if level == Some(LSE) then tag == LSE
    else true
  }

  function LevelFilter(level: Option<string>, ms: seq<Tagged>): seq<Tagged> {
    Filter((t: Tagged) => Keeps(level, t.lizenzstufe), ms)
  }

  /**
   * A tagged match survives the filter iff its label is admitted: "LSE+ | LSD"
   * admits itself and "LSE", "LSE" only itself, and any other level (or
   * none) admits everything and changes nothing. Order is kept.
   */
  lemma LevelFilterSpec(level: Option<string>, ms: seq<Tagged>, t: Tagged)
    requires t in ms
    ensures t in LevelFilter(level, ms) <==>
      if level == Some(LinkUpper) then t.lizenzstufe in {LinkUpper, LSE}
      else if level == Some(LSE) then t.lizenzstufe == LSE
      else true
    ensures level != Some(LinkUpper) && level != Some(LSE) ==> LevelFilter(level, ms) == ms
    ensures forall xs, ys :: ms == xs + ys ==> LevelFilter(level, ms) == LevelFilter(level, xs) + LevelFilter(level, ys)
  {
    FilterMember((x: Tagged) => Keeps(level, x.lizenzstufe), ms, t);
    if level != Some(LinkUpper) && level != Some(LSE) {
      FilterAll((x: Tagged) => Keeps(level, x.lizenzstufe), ms);
    }
    forall xs, ys | ms == xs + ys
      ensures LevelFilter(level, ms) == LevelFilter(level, xs) + LevelFilter(level, ys)
    {
      FilterAppend((x: Tagged) => Keeps(level, x.lizenzstufe), xs, ys);
    }
  }

  // ---- the collections ----------------------------------------------------------

  /** A stored link; `verein` is the club list the link was created for. */
  datatype LinkDoc = LinkDoc(
    id: string,
    user: string,
    start: Option<string>,
    end: Option<string>,
    verein: seq<string>,
    lizenzstufe: Option<string>,
    link: Option<string>,
    onlyShow: Option<bool>)

  /** An answer to a link; only its owner link matters here. */
  datatype AnswerDoc = AnswerDoc(id: string, link: string, name: Option<string>)

  /** `Answer.find({link})`, in collection order. */
  function AnswersOf(answers: seq<AnswerDoc>, linkId: string): (r: seq<AnswerDoc>)
    ensures forall k :: 0 <= k < |r| ==> r[k] in answers && r[k].link == linkId
    ensures forall k :: 0 <= k < |answers| && answers[k].link == linkId ==> answers[k] in r
  {
    Filter((a: AnswerDoc) => a.link == linkId, answers)
  }

  /** `Link.findOne({link: alias})` for a string `alias`; a link stored without alias never matches. */
  function FindAlias(links: seq<LinkDoc>, alias: string): (r: Option<nat>)
    ensures r.None? <==> forall i :: 0 <= i < |links| ==> links[i].link != Some(alias)
    ensures r.Some? ==> r.value < |links| && links[r.value].link == Some(alias)
  {
    FirstIndex(links, (l: LinkDoc) => l.link == Some(alias))
  }

  /** `Link.findById(id)` */
  function FindLink(links: seq<LinkDoc>, id: string): (r: Option<nat>)
    ensures r.None? <==> forall i :: 0 <= i < |links| ==> links[i].id != id
    ensures r.Some? ==> r.value < |links| && links[r.value].id == id
  {
    FirstIndex(links, (l: LinkDoc) => l.id == id)
  }

  // ---- list ---------------------------------------------------------------------

  /** One entry of `list`: the link, with its answers unless it only shows games. */
  datatype Listed = Listed(link: LinkDoc, answer: Option<seq<AnswerDoc>>)

  function ListEntry(l: LinkDoc, answers: seq<AnswerDoc>): Listed {
    if !IsTrue(l.onlyShow) then Listed(l, Some(AnswersOf(answers, l.id))) else Listed(l, None)
  }

  /** The caller's links in collection order; the empty list when the caller is gone. */
  function Listing(links: seq<LinkDoc>, answers: seq<AnswerDoc>, users: seq<User>, userId: string): seq<Listed> {
    if FindById(users, userId).None? then []
    else Map((l: LinkDoc) => ListEntry(l, answers), Filter((l: LinkDoc) => l.user == userId, links))
  }

  /**
   * Every entry of the listing is one of the caller's links, each of them
   * is listed, and the answers are attached exactly to the links whose
   * `onlyShow` is not true, all of that link's answers and no others.
   */
  lemma ListingSpec(links: seq<LinkDoc>, answers: seq<AnswerDoc>, users: seq<User>, userId: string)
    requires FindById(users, userId).Some?
    ensures forall k :: 0 <= k < |Listing(links, answers, users, userId)| ==>
      var e := Listing(links, answers, users, userId)[k];
      && e.link in links && e.link.user == userId
      && (e.answer.Some? <==> !IsTrue(e.link.onlyShow))
      && (e.answer.Some? ==> e.answer.value == AnswersOf(answers, e.link.id))
    ensures forall l :: l in links && l.user == userId ==> ListEntry(l, answers) in Listing(links, answers, users, userId)
  {
    var mine := Filter((l: LinkDoc) => l.user == userId, links);
    forall l | l in links && l.user == userId
      ensures ListEntry(l, answers) in Listing(links, answers, users, userId)
    {
      FilterMember((x: LinkDoc) => x.user == userId, links, l);
      var j :| 0 <= j < |mine| && mine[j] == l;
      assert Listing(links, answers, users, userId)[j] == ListEntry(l, answers);
    }
  }

  // ---- get ----------------------------------------------------------------------

  /**
   * The query of `get`: kickoff on or after `since`, on or before `until`
   * when the link has an end, and one of the link's clubs in a slot.
   */
  predicate InRange(m: MatchDoc, since: string, until: Option<string>, clubs: seq<string>) {
    && LexLe(since, m.kickoffDate)
    && (until.None? || LexLe(m.kickoffDate, until.value))
    && ((m.sr1.club.Some? && m.sr1.club.value in clubs) || (m.sr2.club.Some? && m.sr2.club.value in clubs))
  }

  /** The query of `get` for the link `l`. */
  function InRangeOf(l: LinkDoc, today: string): MatchDoc -> bool {
    (m: MatchDoc) => InRange(m, Since(l, today), Until(l), l.verein)
  }

  /** The level filter on a match: it has a league name whose level `level` admits. */
  function AdmittedBy(level: Option<string>): MatchDoc -> bool {
    (m: MatchDoc) => m.liganame.Some? && Keeps(level, Lizenzstufe(m.liganame).value)
  }

  function GameOf(t: Tagged): MatchDoc {
    t.game
  }

  /** `linkObject.end` is used only when it is a non-empty string. */
  function Until(l: LinkDoc): (r: Option<string>)
    ensures r.Some? <==> Truthy(l.end)
  {
    if Truthy(l.end) then l.end else None
  }

  /** The link's start, or today's date when it has none. */
  function Since(l: LinkDoc, today: string): (r: string)
    ensures Truthy(l.start) ==> r == l.start.value
    ensures !Truthy(l.start) ==> r == today
  {
    if Truthy(l.start) then l.start.value else today
  }

  /** Tag every match with its level; `None` when some match has no league name. */
  function TagAll(ms: seq<MatchDoc>): (r: Option<seq<Tagged>>)
    ensures r.None? <==> exists k :: 0 <= k < |ms| && ms[k].liganame.None?
    ensures r.Some? ==> |r.value| == |ms| && forall k :: 0 <= k < |ms| ==>
      r.value[k] == Tagged(ms[k], Lizenzstufe(ms[k].liganame).value)
    decreases |ms|
  {
    if ms == [] then Some([])
    else
      var rest := TagAll(ms[1..]);
      if ms[0].liganame.None? || rest.None? then
        assert rest.None? ==> exists k :: 1 <= k < |ms| && ms[k].liganame.None? by {
          if rest.None? {
            var k :| 0 <= k < |ms[1..]| && ms[1..][k].liganame.None?;
            assert ms[k + 1] == ms[1..][k];
          }
        }
        None
      else Some([Tagged(ms[0], Lizenzstufe(ms[0].liganame).value)] + rest.value)
  }

  /** What `get` answers. `Crash` is the exception of a selected match without a league name. */
  datatype GetReply = LinkMissing | Crash | Found(club: seq<string>, matches: seq<Tagged>, onlyShow: Option<bool>, link: LinkDoc)

  /** `get` for the path parameter `alias`, with today's date as `YYYY-MM-DD`. */
  function Get(links: seq<LinkDoc>, ms: Matches, alias: string, today: string): GetReply {
    if alias == "" || FindAlias(links, alias).None? then LinkMissing
    else
      var l := links[FindAlias(links, alias).value];
      var selected := Filter(InRangeOf(l, today), ms);
      match TagAll(selected)
      case None => Crash
      case Some(tagged) => Found(l.verein, LevelFilter(l.lizenzstufe, tagged), l.onlyShow, l)
  }

  /** The level filter keeps, in order, the tagged matches whose level is admitted. */
  lemma {:induction false} LevelFilterGames(level: Option<string>, sel: seq<MatchDoc>, tagged: seq<Tagged>)
    requires |tagged| == |sel|
    requires forall k :: 0 <= k < |sel| ==>
      sel[k].liganame.Some? && tagged[k] == Tagged(sel[k], Lizenzstufe(sel[k].liganame).value)
    ensures Map(GameOf, LevelFilter(level, tagged)) == Filter(AdmittedBy(level), sel)
    decreases |sel|
  {
    if sel != [] {
      LevelFilterGames(level, sel[1..], tagged[1..]);
      var f := LevelFilter(level, tagged);
      if Keeps(level, tagged[0].lizenzstufe) {
        assert f == [tagged[0]] + LevelFilter(level, tagged[1..]);
        assert f[1..] == LevelFilter(level, tagged[1..]);
      }
    }
  }

  /**
   * A link that exists returns, in collection order, exactly the matches of
   * its clubs in its date range whose level it admits, each with its level;
   * one that does not exist is answered 400.
   */
  lemma GetSpec(links: seq<LinkDoc>, ms: Matches, alias: string, today: string)
    ensures Get(links, ms, alias, today).LinkMissing? <==> alias == "" || forall i :: 0 <= i < |links| ==> links[i].link != Some(alias)
    ensures Get(links, ms, alias, today).Found? ==>
      var r := Get(links, ms, alias, today);
      && r.link.link == Some(alias) && r.link in links
      && forall k :: 0 <= k < |r.matches| ==>
           && r.matches[k].game in ms
           && InRange(r.matches[k].game, Since(r.link, today), Until(r.link), r.link.verein)
           && r.matches[k].lizenzstufe == Lizenzstufe(r.matches[k].game.liganame).value
           && Keeps(r.link.lizenzstufe, r.matches[k].lizenzstufe)
    ensures Get(links, ms, alias, today).Found? ==>
      var r := Get(links, ms, alias, today);
      Map(GameOf, r.matches) == Filter(Both(InRangeOf(r.link, today), AdmittedBy(r.link.lizenzstufe)), ms)
  {
    if Get(links, ms, alias, today).Found? {
      var r := Get(links, ms, alias, today);
      var l := links[FindAlias(links, alias).value];
      var selected := Filter(InRangeOf(l, today), ms);
      var tagged := TagAll(selected).value;
      LevelFilterGames(l.lizenzstufe, selected, tagged);
      FilterFilter(InRangeOf(l, today), AdmittedBy(l.lizenzstufe), ms);
      forall k | 0 <= k < |r.matches|
        ensures && r.matches[k].game in ms
                && InRange(r.matches[k].game, Since(r.link, today), Until(r.link), r.link.verein)
                && r.matches[k].lizenzstufe == Lizenzstufe(r.matches[k].game.liganame).value
                && Keeps(r.link.lizenzstufe, r.matches[k].lizenzstufe)
      {
        assert r.matches[k] in tagged;
        var j :| 0 <= j < |tagged| && tagged[j] == r.matches[k];
        assert selected[j] in ms;
      }
    }
  }

  // ---- add and remove -----------------------------------------------------------

  /** The fields of an `add` request; the alias may be left out, sent as null or given. */
  datatype AddBody = AddBody(alias: Sent<string>, verein: string, start: Option<string>, end: Option<string>,
                             lizenzstufe: Option<string>, onlyShow: Option<bool>)

  const AliasTaken: string := "Alias-Link ist bereits in Verwendung bitte einen anderen wählen"

  datatype Reply = Reply(status: int, message: string)

  /** `verein`: "ALLE" stands for all of the caller's clubs. */
  function Vereine(body: AddBody, caller: User): (r: seq<string>)
    ensures body.verein == "ALLE" ==> r == Clubs(caller)
    ensures body.verein != "ALLE" ==> r == [body.verein]
  {
    if body.verein == "ALLE" then Clubs(caller) else [body.verein]
  }

  /**
   * Whether `add`'s alias lookup finds a document. The handler skips the
   * lookup only for a null alias (`alias !== null`); a left-out alias is
   * looked up as `{link: undefined}`, and `undefinedFound` says whether the
   * driver's reading of that filter finds a document.
   */
  predicate Taken(links: seq<LinkDoc>, alias: Sent<string>, undefinedFound: bool) {
    match alias
    case SentNull => false
    case Unsent => undefinedFound
    case SentValue(a) => FindAlias(links, a).Some?
  }

  /**
   * The alias a new link is stored with: the UUID only for a null alias; a
   * left-out alias is stored as no alias at all.
   */
  function StoredAlias(alias: Sent<string>, uuid: string): (r: Option<string>)
    ensures alias.SentNull? ==> r == Some(uuid)
    ensures alias.Unsent? ==> r.None?
    ensures alias.SentValue? ==> r == Some(alias.value)
  {
    match alias
    case SentNull => Some(uuid)
    case Unsent => None
    case SentValue(a) => Some(a)
  }

  /** The collections `add` and `remove` write. */
  class LinkStore {
    var links: seq<LinkDoc>
    var answers: seq<AnswerDoc>

    constructor(ls: seq<LinkDoc>, as_: seq<AnswerDoc>)
      ensures links == ls && answers == as_
    {
      links := ls;
      answers := as_;
    }

    /** `list`: push each of the caller's links, with its answers unless it only shows games. */
    method List(users: seq<User>, userId: string) returns (r: seq<Listed>)
      ensures r == Listing(links, answers, users, userId)
    {
      if FindById(users, userId).None? {
        return [];
      }
      var mine := Filter((l: LinkDoc) => l.user == userId, links);
      var ans := answers;
      r := [];
      var i := 0;
      while i < |mine|
        invariant 0 <= i <= |mine|
        invariant r == Map((l: LinkDoc) => ListEntry(l, ans), mine[..i])
      {
        var entry;
        if !IsTrue(mine[i].onlyShow) {
          entry := Listed(mine[i], Some(AnswersOf(answers, mine[i].id)));
        } else {
          entry := Listed(mine[i], None);
        }
        assert mine[..i + 1] == mine[..i] + [mine[i]];
        MapSnoc((l: LinkDoc) => ListEntry(l, ans), mine[..i], mine[i]);
        r := r + [entry];
        i := i + 1;
      }
      assert mine[..i] == mine;
    }

    /**
     * `add` for the caller `userId`; `uuid` is `randomUUID()`, `newId` the id
     * the new document receives and `undefinedFound` the outcome of the
     * lookup for a left-out alias (see `Taken`). `None`: the caller is gone
     * and no response is sent.
     */
    method Add(users: seq<User>, userId: string, body: AddBody, uuid: string, newId: string, undefinedFound: bool)
      returns (r: Option<Reply>)
      modifies this
      ensures answers == old(answers)
      ensures FindById(users, userId).None? ==> r.None? && links == old(links)
      ensures FindById(users, userId).Some? && Taken(old(links), body.alias, undefinedFound) ==>
        r == Some(Reply(409, AliasTaken)) && links == old(links)
      ensures FindById(users, userId).Some? && !Taken(old(links), body.alias, undefinedFound) ==>
        && r == Some(Reply(200, "Link wurde angelegt."))
        && links == old(links) + [LinkDoc(newId, userId, body.start, body.end,
             Vereine(body, users[FindById(users, userId).value]), body.lizenzstufe,
             StoredAlias(body.alias, uuid), body.onlyShow)]
    {
      var u := FindById(users, userId);
      if u.None? {
        return None;
      }
      var alias := Some(uuid);
      if !body.alias.SentNull? {
        var already := if body.alias.SentValue? then FindAlias(links, body.alias.value).Some? else undefinedFound;
        if already {
          return Some(Reply(409, AliasTaken));
        }
        alias := body.alias.ToOption();
      }
      var verein := Vereine(body, users[u.value]);
      links := links + [LinkDoc(newId, userId, body.start, body.end, verein, body.lizenzstufe, alias, body.onlyShow)];
      return Some(Reply(200, "Link wurde angelegt."));
    }

    /**
     * `remove`: the link and its answers go only when the caller owns it;
     * a missing link (or a link whose owner is gone) ends in the handler's
     * catch. The answer is the same whether or not anything was removed.
     */
    method Remove(users: seq<User>, userId: string, linkId: Option<string>) returns (message: string)
      modifies this
      ensures var deletes := FindById(users, userId).Some? && linkId.Some? && FindLink(old(links), linkId.value).Some?
                && old(links)[FindLink(old(links), linkId.value).value].user == userId;
              && (deletes ==> links == Filter((l: LinkDoc) => l.id != linkId.value, old(links))
                              && answers == Filter((a: AnswerDoc) => a.link != linkId.value, old(answers)))
              && (!deletes ==> links == old(links) && answers == old(answers))
      ensures message == "Link nicht gefunden!" <==>
        FindById(users, userId).Some? && linkId.Some? &&
        (FindLink(old(links), linkId.value).None? ||
         FindById(users, old(links)[FindLink(old(links), linkId.value).value].user).None?)
      ensures message != "Link nicht gefunden!" ==> message == "Link wurde gelöscht"
    {
      if FindById(users, userId).None? || linkId.None? {
        return "Link wurde gelöscht";
      }
      var at := FindLink(links, linkId.value);
      if at.None? {
        return "Link nicht gefunden!";
      }
      var owner := links[at.value].user;
      if FindById(users, owner).None? {
        return "Link nicht gefunden!";
      }
      if owner == userId {
        answers := Filter((a: AnswerDoc) => a.link != linkId.value, answers);
        links := Filter((l: LinkDoc) => l.id != linkId.value, links);
      }
      return "Link wurde gelöscht";
    }
  }
}

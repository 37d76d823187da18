/**
 * The referee-exchange listings of _controller/ref.controller.js: the
 * public game list, the bazaar of open referee slots with the contacts of
 * the clubs offering them, the list of clubs that owe referees, and the
 * take-over request. Time is passed in as milliseconds; `parse` stands for
 * `new Date(kickoffDate)` and yields nothing for an invalid date.
 */
module RefController {
  import opened Wrappers
  import opened Seqs
  import opened LegacyData
  import opened LegacyUsers

  type DateParser = string -> Option<int>

  /** The seconds in a day. */
  const Day: int := 86400

  /**
   * `Math.floor(now / 1000) - Math.floor(kickoff / 1000) < 86400`; an
   * invalid date gives NaN, for which the comparison is false. Dafny's
   * division by a positive divisor rounds down, as `Math.floor` does.
   */
  predicate Recent(now: int, kickoff: Option<int>) {
    kickoff.Some? && now / 1000 - kickoff.value / 1000 < Day
  }

  // ---- all -----------------------------------------------------------------------

  /** A slot without bonus, name and text, which `all` does not select. */
  datatype ListedSlot = ListedSlot(club: Option<string>, basar: Option<bool>, besetzt: Option<bool>, mail: Option<string>)

  datatype ListedGame = ListedGame(head: Head, sr1: ListedSlot, sr2: ListedSlot)

  function Listed(g: MatchDoc): (r: ListedGame)
    ensures r.head == HeadOf(g) && r.sr1.club == g.sr1.club && r.sr2.club == g.sr2.club
  {
    ListedGame(HeadOf(g),
      ListedSlot(g.sr1.club, g.sr1.basar, g.sr1.besetzt, g.sr1.mail),
      ListedSlot(g.sr2.club, g.sr2.basar, g.sr2.besetzt, g.sr2.mail))
  }

  /** The filter of `all`. */
  predicate ShownInAll(g: MatchDoc, now: int, parse: DateParser) {
    Recent(now, parse(g.kickoffDate)) && !g.abgesagt && !g.verzicht && g.sr1.club.Some? && g.sr2.club.Some?
  }

  /** The games `all` selects, in collection order. */
  function AllGames(ms: Matches, now: int, parse: DateParser): seq<MatchDoc> {
    Filter((g: MatchDoc) => ShownInAll(g, now, parse), ms)
  }

  /** `all`: the listed games. */
  function All(ms: Matches, now: int, parse: DateParser): seq<ListedGame> {
    Map(Listed, AllGames(ms, now, parse))
  }

  /**
   * A game is listed iff it kicks off less than a day before now (or later),
   * is neither cancelled nor forfeited, and has both referee clubs set; the
   * listing keeps the collection order.
   */
  lemma AllSelects(ms: Matches, now: int, parse: DateParser, g: MatchDoc)
    requires g in ms
    ensures ShownInAll(g, now, parse) ==> Listed(g) in All(ms, now, parse)
    ensures forall k :: 0 <= k < |All(ms, now, parse)| ==>
      exists h :: h in ms && ShownInAll(h, now, parse) && All(ms, now, parse)[k] == Listed(h)
  {
    var kept := AllGames(ms, now, parse);
    if ShownInAll(g, now, parse) {
      var i :| 0 <= i < |ms| && ms[i] == g;
      assert g in kept;
      var j :| 0 <= j < |kept| && kept[j] == g;
      assert All(ms, now, parse)[j] == Listed(g);
    }
    forall k | 0 <= k < |All(ms, now, parse)|
      ensures exists h :: h in ms && ShownInAll(h, now, parse) && All(ms, now, parse)[k] == Listed(h)
    {
      var h := kept[k];
      assert h in ms && ShownInAll(h, now, parse);
      assert All(ms, now, parse)[k] == Listed(h);
    }
  }

  /** A game that kicked off a full day ago or more is never listed, whatever else holds. */
  lemma AllDropsOldGames(now: int, kickoff: int)
    requires kickoff <= now - Day * 1000
    ensures !Recent(now, Some(kickoff))
  {
    assert kickoff / 1000 <= (now - Day * 1000) / 1000;
    assert (now - Day * 1000) / 1000 == now / 1000 - Day;
  }

  // ---- basar ---------------------------------------------------------------------

  /** The database query of `basar`: neither cancelled nor forfeited, and some slot offered and open. */
  predicate BasarQuery(g: MatchDoc) {
    !g.abgesagt && !g.verzicht && (Open(g.sr1) || Open(g.sr2))
  }

  /** The users `basar` loads: those who show their contact or receive mails. */
  predicate Contactable(u: User) {
    IsSet(u, "showContact") || IsSet(u, "getEmails")
  }

  /** The user fields a contact entry copies. */
  const ContactKeys: set<string> := {
    "getEmails", "name", "firstName", "lastName", "contactInfo", "showInfo",
    "showMail", "showContact", "email", "phone", "whatsapp"
  }

  type Contact = map<string, Value>

  function ContactOf(u: User): (c: Contact)
    ensures forall k :: k in c <==> k in ContactKeys && k in u.doc
    ensures forall k :: k in c ==> c[k] == u.doc[k]
  {
    map k | k in u.doc && k in ContactKeys :: u.doc[k]
  }

  /** The contactable users whose club list contains `club` (never for a slot without a club). */
  function ClubUsers(users: seq<User>, club: Option<string>): seq<User> {
    Filter((u: User) => club.Some? && club.value in Clubs(u), Filter(Contactable, users))
  }

  /** A slot as `basar` shows it: `srKInfo` is deleted. */
  datatype ShownSlot = ShownSlot(club: Option<string>, name: Option<string>, basar: Option<bool>,
                                 besetzt: Option<bool>, bonus: Option<int>, mail: Option<string>)

  function Shown(s: Slot): ShownSlot {
    ShownSlot(s.club, s.name, s.basar, s.besetzt, s.bonus, s.mail)
  }

  /** One bazaar entry, with `srKContact` attached only for an offered slot. */
  datatype BasarGame = BasarGame(head: Head, sr1: ShownSlot, sr2: ShownSlot,
                                 sr1Contact: Option<seq<Contact>>, sr2Contact: Option<seq<Contact>>)

  function BasarEntry(g: MatchDoc, users: seq<User>): BasarGame {
    BasarGame(HeadOf(g), Shown(g.sr1), Shown(g.sr2),
      if IsTrue(g.sr1.basar) then Some(Map(ContactOf, ClubUsers(users, g.sr1.club))) else None,
      if IsTrue(g.sr2.basar) then Some(Map(ContactOf, ClubUsers(users, g.sr2.club))) else None)
  }

  /** The games `basar` lists: the query, then the one-day window, both keeping the order. */
  function BasarGames(ms: Matches, now: int, parse: DateParser): seq<MatchDoc> {
    Filter((g: MatchDoc) => Recent(now, parse(g.kickoffDate)), Filter(BasarQuery, ms))
  }

  /** `basar`: the selected games, then one entry per game. */
  method Basar(ms: Matches, users: seq<User>, now: int, parse: DateParser) returns (spiele: seq<BasarGame>)
    ensures spiele == Map((g: MatchDoc) => BasarEntry(g, users), BasarGames(ms, now, parse))
  {
    var games := BasarGames(ms, now, parse);
    spiele := PushEntries(games, users);
  }

  /** The loop of `basar` that pushes one entry per game, in order. */
  method PushEntries(games: seq<MatchDoc>, users: seq<User>) returns (spiele: seq<BasarGame>)
    ensures spiele == Map((g: MatchDoc) => BasarEntry(g, users), games)
  {
    spiele := [];
    var i := 0;
    while i < |games|
      invariant 0 <= i <= |games| && |spiele| == i
      invariant forall k :: 0 <= k < i ==> spiele[k] == BasarEntry(games[k], users)
    {
      spiele := spiele + [BasarEntry(games[i], users)];
      i := i + 1;
    }
  }

  /**
   * A game is in the bazaar iff it is neither cancelled nor forfeited, one
   * of its slots is offered and not taken, and it kicks off less than a day
   * before now.
   */
  lemma BasarSelects(ms: Matches, now: int, parse: DateParser, g: MatchDoc)
    requires g in ms
    ensures g in BasarGames(ms, now, parse) <==>
      !g.abgesagt && !g.verzicht && (Open(g.sr1) || Open(g.sr2)) && Recent(now, parse(g.kickoffDate))
  {
    var q := Filter(BasarQuery, ms);
    var r := BasarGames(ms, now, parse);
    if g in r {
      var k :| 0 <= k < |r| && r[k] == g;
      assert g in q;
      var j :| 0 <= j < |q| && q[j] == g;
    }
  }

  /**
   * An entry has a contact list for slot k iff slot k is offered; the list
   * holds, in order, the contacts of exactly the contactable users whose
   * clubs include the slot's club.
   */
  lemma BasarContacts(g: MatchDoc, users: seq<User>, u: User)
    requires u in users
    ensures BasarEntry(g, users).sr1Contact.Some? <==> IsTrue(g.sr1.basar)
    ensures BasarEntry(g, users).sr2Contact.Some? <==> IsTrue(g.sr2.basar)
    ensures u in ClubUsers(users, g.sr1.club) <==> Contactable(u) && g.sr1.club.Some? && g.sr1.club.value in Clubs(u)
    ensures u in ClubUsers(users, g.sr2.club) <==> Contactable(u) && g.sr2.club.Some? && g.sr2.club.value in Clubs(u)
  {
    ClubUsersMember(users, g.sr1.club, u);
    ClubUsersMember(users, g.sr2.club, u);
  }

  lemma ClubUsersMember(users: seq<User>, club: Option<string>, u: User)
    requires u in users
    ensures u in ClubUsers(users, club) <==> Contactable(u) && club.Some? && club.value in Clubs(u)
  {
    var c := Filter(Contactable, users);
    var r := ClubUsers(users, club);
    if u in r {
      var k :| 0 <= k < |r| && r[k] == u;
      assert u in c;
      var j :| 0 <= j < |c| && c[j] == u;
    }
  }

  // ---- vereine -------------------------------------------------------------------

  /** A set club as a one-element list, an unset one as the empty list. */
  function Present(club: Option<string>): seq<string> {
    if club.Some? then [club.value] else []
  }

  /** The referee clubs of a game, slot 1 then slot 2, leaving out unset ones. */
  function GameClubs(g: MatchDoc): seq<string> {
    Present(g.sr1.club) + Present(g.sr2.club)
  }

  /** All referee clubs of the collection in order, with repetitions. */
  function AllClubs(ms: Matches): seq<string>
    decreases |ms|
  {
    if ms == [] then [] else AllClubs(ms[..|ms| - 1]) + GameClubs(ms[|ms| - 1])
  }

  /** `vereine`: push each set club that is not yet in the list. */
  method Vereine(ms: Matches) returns (refList: seq<string>)
    ensures refList == Dedup(AllClubs(ms))
  {
    refList := [];
    var i := 0;
    while i < |ms|
      invariant 0 <= i <= |ms|
      invariant refList == AddAll([], AllClubs(ms[..i]))
    {
      var g := ms[i];
      var prefix := AllClubs(ms[..i]);
      assert ms[..i + 1][..i] == ms[..i];
      assert AllClubs(ms[..i + 1]) == prefix + Present(g.sr1.club) + Present(g.sr2.club);
      refList := PushClub(refList, prefix, g.sr1.club);
      refList := PushClub(refList, prefix + Present(g.sr1.club), g.sr2.club);
      i := i + 1;
    }
    assert ms[..i] == ms;
  }

  /** One `if (idx === -1 && club) refList.push(club)` step of `vereine`. */
  method PushClub(refList: seq<string>, seen: seq<string>, club: Option<string>) returns (r: seq<string>)
    requires refList == AddAll([], seen)
    ensures r == AddAll([], seen + Present(club))
  {
    var idx := Position(refList, club);
    r := refList;
    if idx == -1 && club.Some? {
      r := refList + [club.value];
    }
    if club.Some? {
      AddAllSnoc([], seen, club.value);
    } else {
      assert seen + Present(club) == seen;
    }
  }

  /** `findIndex(_ref => _ref === x)`; no entry equals an unset club. */
  method Position(xs: seq<string>, x: Option<string>) returns (at: int)
    ensures at == -1 <==> x.None? || x.value !in xs
    ensures at != -1 ==> 0 <= at < |xs| && xs[at] == x.value
  {
    if x.None? {
      return -1;
    }
    at := 0;
    while at < |xs|
      invariant 0 <= at <= |xs|
      invariant x.value !in xs[..at]
    {
      if xs[at] == x.value {
        return;
      }
      assert xs[..at + 1] == xs[..at] + [xs[at]];
      at := at + 1;
    }
    assert xs[..at] == xs;
    at := -1;
  }

  /** The club list holds every set referee club of the collection exactly once. */
  lemma VereineSpec(ms: Matches, club: string)
    ensures NoDups(Dedup(AllClubs(ms)))
    ensures club in Dedup(AllClubs(ms)) <==>
      exists i :: 0 <= i < |ms| && (ms[i].sr1.club == Some(club) || ms[i].sr2.club == Some(club))
  {
    DedupSpec(AllClubs(ms));
    AllClubsMember(ms, club);
  }

  lemma {:induction false} AllClubsMember(ms: Matches, club: string)
    ensures club in AllClubs(ms) <==>
      exists i :: 0 <= i < |ms| && (ms[i].sr1.club == Some(club) || ms[i].sr2.club == Some(club))
    decreases |ms|
  {
    if ms != [] {
      var init := ms[..|ms| - 1];
      var g := ms[|ms| - 1];
      AllClubsMember(init, club);
      assert AllClubs(ms) == AllClubs(init) + GameClubs(g);
      assert club in GameClubs(g) <==> g.sr1.club == Some(club) || g.sr2.club == Some(club);
      if i :| 0 <= i < |ms| && (ms[i].sr1.club == Some(club) || ms[i].sr2.club == Some(club)) {
        if i < |init| {
          assert init[i] == ms[i];
        }
      }
      if i :| 0 <= i < |init| && (init[i].sr1.club == Some(club) || init[i].sr2.club == Some(club)) {
        assert ms[i] == init[i];
      }
    }
  }

  // ---- uebernehmen ---------------------------------------------------------------

  /** No answer, not found, or the take-over mail to the users of club `sr`. */
  datatype Takeover = Unanswered | GameMissing | Mailed(to: seq<Option<string>>)

  /**
   * `uebernehmen` for `parseInt(req.params.game)`. A NaN id (`None`) cannot
   * be cast to the numeric `matchId` path, so the query rejects and the
   * handler, which catches nothing, ends unanswered. A numeric id naming no
   * game is answered 404; otherwise a mail goes to the users whose club
   * list contains `sr`. After the mail the handler sends no response at all,
   * so `Mailed` is not an answer to the client.
   */
  function Uebernehmen(ms: Matches, game: Option<int>, sr: string, users: seq<User>): (r: Takeover)
    ensures r.Unanswered? <==> game.None?
    ensures r.GameMissing? <==> game.Some? && forall i :: 0 <= i < |ms| ==> ms[i].matchId != game.value
    ensures r.Mailed? ==> r.to == Map(Email, Filter((u: User) => sr in Clubs(u), users))
  {
    if game.None? then Unanswered
    else if FindMatch(ms, game.value).None? then GameMissing
    else Mailed(Map(Email, Filter((u: User) => sr in Clubs(u), users)))
  }
}

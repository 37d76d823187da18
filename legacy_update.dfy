/**
 * The legacy synchronisation of _teamsl/update.js: leagues are copied from
 * the basketball federation's league list, and each match of a league is
 * created or reconciled with its stored document. Reconciliation decides
 * which referee slots are reset and which clubs are told about a change.
 * The federation API is a parameter; mails are recorded as notices.
 */
module LegacyUpdate {
  import opened Wrappers
  import opened Strings
  import opened Seqs
  import opened LegacyData

  // ---- the federation's match data -------------------------------------------

  datatype PersonData = PersonData(vorname: string, nachname: string)

  datatype Referee = Referee(personData: Option<PersonData>)

  /** `getMatchInfo`: a missing team object is `None`, otherwise its `teamname`. */
  datatype MatchInfo = MatchInfo(
    matchId: int,
    matchDay: int,
    matchNo: int,
    kickoffDate: string,
    kickoffTime: string,
    verzicht: bool,
    abgesagt: bool,
    liganame: Option<string>,
    homeTeam: Option<string>,
    guestTeam: Option<string>,
    spielfeld: Option<string>,
    srList: Option<seq<Option<Referee>>>)

  /**
   * The club of referee slot `i`: nothing when the list, the entry or its
   * person data is missing; the surname when the first name is "verein" in
   * any case; the referee pool otherwise.
   */
  function DeriveSr(srList: Option<seq<Option<Referee>>>, i: nat): (r: Option<string>)
    ensures r.None? <==>
      srList.None? || i >= |srList.value| || srList.value[i].None? || srList.value[i].value.personData.None?
    ensures r.Some? && ToLower(srList.value[i].value.personData.value.vorname) == "verein" ==>
      r.value == srList.value[i].value.personData.value.nachname
    ensures r.Some? && ToLower(srList.value[i].value.personData.value.vorname) != "verein" ==>
      r.value == "Pool"
  {
    if srList.None? || i >= |srList.value| || srList.value[i].None? then None
    else match srList.value[i].value.personData
      case None => None
      case Some(p) => if ToLower(p.vorname) == "verein" then Some(p.nachname) else Some("Pool")
  }

  /** A club entry is recognised whatever the case of "Verein"; anyone else stands for the pool. */
  lemma DeriveSrExamples(club: string, first: string, last: string)
    requires first != "" && first[0] == 'x'
    ensures DeriveSr(Some([Some(Referee(Some(PersonData("VeReIn", club))))]), 0) == Some(club)
    ensures DeriveSr(Some([Some(Referee(Some(PersonData(first, last))))]), 0) == Some("Pool")
    ensures DeriveSr(Some([Some(Referee(Some(PersonData(first, last))))]), 1) == None
    ensures DeriveSr(Some([None, Some(Referee(None))]), 1) == None
  {
    assert ToLower("VeReIn") == "verein";
    assert ToLower(first)[0] == 'x';
  }

  /** The document the sync writes for a match it has not stored yet. */
  function NewDoc(info: MatchInfo, oid: string, sr1: Option<string>, sr2: Option<string>): (d: MatchDoc)
    requires info.homeTeam.Some? && info.guestTeam.Some?
    ensures d.oid == oid && d.matchId == info.matchId
    ensures d.homeTeam == info.homeTeam.value && d.guestTeam == info.guestTeam.value
    ensures d.sr1 == FreshSlot(sr1) && d.sr2 == FreshSlot(sr2)
  {
    MatchDoc(oid, info.matchId, info.matchDay, info.matchNo, info.kickoffDate, info.kickoffTime,
             info.verzicht, info.abgesagt, info.liganame, info.homeTeam.value, info.guestTeam.value,
             info.spielfeld, FreshSlot(sr1), FreshSlot(sr2))
  }

  // ---- reconciliation of a stored match ----------------------------------------

  /** "Die Ansetzung entfällt!" (`Cancelled`) or "Die Ansetzung bleibt bestehen!" (`Kept`). */
  datatype Kind = Cancelled | Kept

  /**
   * A mail to the users of `club` about slot `slot`, copied to `extra` (the
   * slot's own contact mail) when there is one.
   */
  datatype Notice = Notice(slot: int, club: Option<string>, extra: Option<string>, kind: Kind)

  /** The notice for a slot the club had flagged, or none. */
  function SlotNotice(k: int, s: Slot, withMail: bool, kind: Kind): (r: seq<Notice>)
    ensures |r| <= 1
    ensures r != [] <==> Flagged(s)
    ensures r != [] ==> r[0].slot == k && r[0].club == s.club && r[0].kind == kind
    ensures r != [] ==> r[0].extra == (if withMail && s.mail.Some? && s.mail.value != "" then s.mail else None)
  {
    if Flagged(s) then
      [Notice(k, s.club, if withMail && s.mail.Some? && s.mail.value != "" then s.mail else None, kind)]
    else []
  }

  /** Kick-off date or time, forfeit or cancellation differ. */
  predicate ScheduleChanged(d: MatchDoc, m: MatchDoc) {
    d.kickoffDate != m.kickoffDate || d.kickoffTime != m.kickoffTime ||
    d.verzicht != m.verzicht || d.abgesagt != m.abgesagt
  }

  /**
   * `result.updateOne(match)`: every field of the incoming document is
   * written; sr2Name and both contact mails are not among them and stay.
   */
  function Overwrite(d: MatchDoc, m: MatchDoc): MatchDoc {
    m.(oid := d.oid,
       sr1 := Slot(m.sr1.club, None, Some(false), Some(false), None, d.sr1.mail, None),
       sr2 := Slot(m.sr2.club, d.sr2.name, Some(false), Some(false), None, d.sr2.mail, None))
  }

  /** The referee changes: slot 2 is handled before slot 1, each reset only when its club differs. */
  function RefereeChange(d: MatchDoc, m: MatchDoc, base: MatchDoc): (MatchDoc, seq<Notice>) {
    var afterSr2 := if d.sr2.club != m.sr2.club then base.(sr2 := FreshSlot(m.sr2.club)) else base;
    var n2 := if d.sr2.club != m.sr2.club then SlotNotice(2, d.sr2, true, Cancelled) else [];
    var afterSr1 := if d.sr1.club != m.sr1.club then afterSr2.(sr1 := FreshSlot(m.sr1.club)) else afterSr2;
    var n1 := if d.sr1.club != m.sr1.club then SlotNotice(1, d.sr1, true, Cancelled) else [];
    (afterSr1, n2 + n1)
  }

  /**
   * The reconciliation of stored document `d` with the incoming document
   * `m`: the new stored document and the notices, in the order sent. The
   * notices read the flags `d` had when it was loaded.
   */
  function Reconcile(d: MatchDoc, m: MatchDoc): (MatchDoc, seq<Notice>) {
    var teams := d.(homeTeam := m.homeTeam, guestTeam := m.guestTeam);
    if ScheduleChanged(d, m) then
      (Overwrite(teams, m), SlotNotice(1, d.sr1, true, Cancelled) + SlotNotice(2, d.sr2, true, Cancelled))
    else
      var (afterRefs, refNotices) := RefereeChange(d, m, teams);
      if d.spielfeld != m.spielfeld then
        (afterRefs.(spielfeld := m.spielfeld),
         refNotices + SlotNotice(1, d.sr1, false, Kept) + SlotNotice(2, d.sr2, false, Kept))
      else (afterRefs, refNotices)
  }

  /** The teams are always taken from the federation; nothing else decides them. */
  lemma ReconcileTeams(d: MatchDoc, m: MatchDoc)
    ensures Reconcile(d, m).0.homeTeam == m.homeTeam && Reconcile(d, m).0.guestTeam == m.guestTeam
    ensures Reconcile(d, m).0.oid == d.oid
  {
  }

  /**
   * A schedule change overwrites the document: both slots take the new
   * clubs and lose flags, bonus and text; the sr1 name goes, while the sr2
   * name and both contact mails stay. Every flagged slot gets a notice
   * copied to its contact mail.
   */
  lemma ScheduleChangeOverwrites(d: MatchDoc, m: MatchDoc)
    requires ScheduleChanged(d, m)
    ensures var (r, ns) := Reconcile(d, m);
      && r.kickoffDate == m.kickoffDate && r.kickoffTime == m.kickoffTime
      && r.verzicht == m.verzicht && r.abgesagt == m.abgesagt
      && r.spielfeld == m.spielfeld && r.liganame == m.liganame
      && r.sr1 == Slot(m.sr1.club, None, Some(false), Some(false), None, d.sr1.mail, None)
      && r.sr2 == Slot(m.sr2.club, d.sr2.name, Some(false), Some(false), None, d.sr2.mail, None)
      && !Flagged(r.sr1) && !Flagged(r.sr2)
      && (forall n :: n in ns ==> n.kind == Cancelled && (n.slot == 1 || n.slot == 2))
      && ((exists n :: n in ns && n.slot == 1) <==> Flagged(d.sr1))
      && ((exists n :: n in ns && n.slot == 2) <==> Flagged(d.sr2))
  {
    var ns := Reconcile(d, m).1;
    assert ns == SlotNotice(1, d.sr1, true, Cancelled) + SlotNotice(2, d.sr2, true, Cancelled);
  }

  /**
   * Without a schedule change, a slot whose club changed is reset to the
   * new club with everything else cleared, and a slot whose club is the
   * same is left exactly as it was; only a changed slot that was flagged
   * is notified.
   */
  lemma RefereeChangeResets(d: MatchDoc, m: MatchDoc)
    requires !ScheduleChanged(d, m)
    ensures var (r, _) := Reconcile(d, m);
      && (d.sr1.club != m.sr1.club ==> r.sr1 == FreshSlot(m.sr1.club))
      && (d.sr1.club == m.sr1.club ==> r.sr1 == d.sr1)
      && (d.sr2.club != m.sr2.club ==> r.sr2 == FreshSlot(m.sr2.club))
      && (d.sr2.club == m.sr2.club ==> r.sr2 == d.sr2)
      && r.kickoffDate == d.kickoffDate && r.kickoffTime == d.kickoffTime
      && r.liganame == d.liganame && r.matchNo == d.matchNo
    ensures var (_, ns) := Reconcile(d, m);
      d.spielfeld == m.spielfeld ==>
        && ((exists n :: n in ns && n.slot == 1) <==> d.sr1.club != m.sr1.club && Flagged(d.sr1))
        && ((exists n :: n in ns && n.slot == 2) <==> d.sr2.club != m.sr2.club && Flagged(d.sr2))
  {
  }

  /**
   * When only the venue changed, only `spielfeld` (and the team names)
   * change, and every flagged slot is told that the game stays, without a
   * copy to the contact mail.
   */
  lemma VenueChangeOnly(d: MatchDoc, m: MatchDoc)
    requires !ScheduleChanged(d, m) && d.sr1.club == m.sr1.club && d.sr2.club == m.sr2.club
    requires d.spielfeld != m.spielfeld
    ensures Reconcile(d, m).0 == d.(homeTeam := m.homeTeam, guestTeam := m.guestTeam, spielfeld := m.spielfeld)
    ensures Reconcile(d, m).1 == SlotNotice(1, d.sr1, false, Kept) + SlotNotice(2, d.sr2, false, Kept)
    ensures forall n :: n in Reconcile(d, m).1 ==> n.extra.None? && n.kind == Kept
  {
  }

  /** A document that agrees with the federation on everything compared is left alone and nobody is told. */
  lemma UnchangedIsQuiet(d: MatchDoc, m: MatchDoc)
    requires !ScheduleChanged(d, m) && d.sr1.club == m.sr1.club && d.sr2.club == m.sr2.club
    requires d.spielfeld == m.spielfeld && d.homeTeam == m.homeTeam && d.guestTeam == m.guestTeam
    ensures Reconcile(d, m) == (d, [])
  {
    assert d.(homeTeam := m.homeTeam, guestTeam := m.guestTeam) == d;
    var rc := RefereeChange(d, m, d);
    assert rc.0 == d;
    assert rc.1 == [];
  }

  /** Reconciling twice with the same federation data changes nothing more and sends nothing. */
  lemma ReconcileSettles(d: MatchDoc, m: MatchDoc)
    ensures Reconcile(Reconcile(d, m).0, m) == (Reconcile(d, m).0, [])
  {
    var r := Reconcile(d, m).0;
    if ScheduleChanged(d, m) {
      assert r.sr1.club == m.sr1.club && r.sr2.club == m.sr2.club && r.spielfeld == m.spielfeld;
    } else {
      RefereeChangeResets(d, m);
    }
    assert !ScheduleChanged(r, m);
    UnchangedIsQuiet(r, m);
  }

  // ---- one match of a league -----------------------------------------------------

  /** What `matchRef` does to the collection: the new collection, the notices and the reference to keep. */
  datatype MatchOutcome = MatchOutcome(matches: Matches, notices: seq<Notice>, ref: Option<string>)

  /**
   * `matchRef` for the federation record `info`: skipped without a home or
   * guest team; created under `freshOid` when its matchId is new (the save
   * succeeds); otherwise reconciled with the stored document.
   */
  function MatchRefSpec(ms: Matches, info: MatchInfo, freshOid: string): (r: MatchOutcome)
    ensures info.homeTeam.None? || info.guestTeam.None? ==> r == MatchOutcome(ms, [], None)
    ensures r.ref.Some? ==> info.homeTeam.Some? && info.guestTeam.Some?
  {
    var sr1 := DeriveSr(info.srList, 0);
    var sr2 := DeriveSr(info.srList, 1);
    if info.homeTeam.None? || info.guestTeam.None? then MatchOutcome(ms, [], None)
    else
      var m := NewDoc(info, freshOid, sr1, sr2);
      match FindMatch(ms, info.matchId)
      case None => MatchOutcome(ms + [m], [], Some(freshOid))
      case Some(i) =>
        var (d, ns) := Reconcile(ms[i], m);
        MatchOutcome(ms[i := d], ns, Some(ms[i].oid))
  }

  /** Match ids stay unique, and the kept reference names the stored document of this match. */
  lemma MatchRefKeepsIds(ms: Matches, info: MatchInfo, freshOid: string)
    requires UniqueIds(ms)
    ensures UniqueIds(MatchRefSpec(ms, info, freshOid).matches)
    ensures var r := MatchRefSpec(ms, info, freshOid);
      r.ref.Some? ==> exists i :: 0 <= i < |r.matches| && r.matches[i].matchId == info.matchId && r.matches[i].oid == r.ref.value
  {
    var r := MatchRefSpec(ms, info, freshOid);
    if r.ref.Some? {
      var sr1 := DeriveSr(info.srList, 0);
      var sr2 := DeriveSr(info.srList, 1);
      var m := NewDoc(info, freshOid, sr1, sr2);
      match FindMatch(ms, info.matchId)
      case None =>
        assert r.matches == ms + [m];
        assert r.matches[|ms|].matchId == info.matchId;
      case Some(i) =>
        ReconcileTeams(ms[i], m);
        assert Reconcile(ms[i], m).0.matchId == info.matchId;
        assert r.matches[i].matchId == info.matchId;
    }
  }

  /** `liga.matches` gains a reference only when it does not hold it yet. */
  function AddRef(refs: seq<string>, ref: string): (r: seq<string>)
    ensures ref in r
    ensures ref in refs ==> r == refs
    ensures ref !in refs ==> r == refs + [ref]
    ensures NoDups(refs) ==> NoDups(r)
  {
    if ref in refs then refs else refs + [ref]
  }

  // ---- the league list ------------------------------------------------------------

  datatype LigaData = LigaData(
    ligaId: int,
    liganame: Option<string>,
    liganr: Option<int>,
    akName: Option<string>,
    geschlechtId: Option<int>,
    geschlecht: Option<string>,
    verbandId: int,
    verbandName: Option<string>)

  /** A stored league: the federation's data and the references of its matches. */
  datatype League = League(data: LigaData, matches: seq<string>)

  /** One answer of `getLigaList`. */
  datatype LigaPage = LigaPage(ligen: seq<LigaData>, hasMoreData: bool, size: int)

  /** The federation's league list by start index; `None` when there is no response. */
  type LigaSource = int -> Option<LigaPage>

  /** Leagues of association 30 are not stored. */
  const SkippedVerband: int := 30

  function FindLeague(ls: seq<League>, ligaId: int): (r: Option<nat>)
    ensures r.None? <==> forall i :: 0 <= i < |ls| ==> ls[i].data.ligaId != ligaId
    ensures r.Some? ==> r.value < |ls| && ls[r.value].data.ligaId == ligaId
  {
    FirstIndex(ls, (l: League) => l.data.ligaId == ligaId)
  }

  /** Save one league: create it, or on a duplicate ligaId overwrite its data and keep its matches. */
  function SaveLiga(ls: seq<League>, l: LigaData): seq<League> {
    if l.verbandId == SkippedVerband then ls
    else match FindLeague(ls, l.ligaId)
      case None => ls + [League(l, [])]
      case Some(i) => ls[i := League(l, ls[i].matches)]
  }

  function SaveAll(ls: seq<League>, ligen: seq<LigaData>): seq<League>
    decreases |ligen|
  {
    if ligen == [] then ls else SaveAll(SaveLiga(ls, ligen[0]), ligen[1..])
  }

  /**
   * `updateLigen(index)`: save the page at `index`, then continue at
   * index + size while there is more. `fuel` bounds the number of further
   * pages, which the federation alone decides.
   */
  function UpdateLigenSpec(ls: seq<League>, src: LigaSource, index: int, fuel: nat): seq<League>
    decreases fuel
  {
    match src(index)
    case None => ls
    case Some(p) =>
      var saved := SaveAll(ls, p.ligen);
      if p.hasMoreData && fuel > 0 then UpdateLigenSpec(saved, src, index + p.size, fuel - 1) else saved
  }

  /** What the stored leagues always satisfy: unique ids and no league of association 30. */
  predicate LeaguesValid(ls: seq<League>) {
    && (forall i, j :: 0 <= i < j < |ls| ==> ls[i].data.ligaId != ls[j].data.ligaId)
    && (forall i :: 0 <= i < |ls| ==> ls[i].data.verbandId != SkippedVerband)
  }

  /**
   * Saving a league keeps the leagues valid, stores it unless it belongs
   * to association 30, never drops a league and never touches the match
   * references.
   */
  lemma SaveLigaSpec(ls: seq<League>, l: LigaData)
    requires LeaguesValid(ls)
    ensures var r := SaveLiga(ls, l);
      && LeaguesValid(r)
      && |r| >= |ls|
      && (l.verbandId != SkippedVerband ==> exists i :: 0 <= i < |r| && r[i].data == l)
      && (l.verbandId == SkippedVerband ==> r == ls)
      && (forall i :: 0 <= i < |ls| ==> r[i].data.ligaId == ls[i].data.ligaId && r[i].matches == ls[i].matches)
      && (forall i :: |ls| <= i < |r| ==> r[i].matches == [])
  {
    if l.verbandId != SkippedVerband {
      match FindLeague(ls, l.ligaId)
      case None =>
        assert SaveLiga(ls, l)[|ls|].data == l;
      case Some(k) =>
        assert SaveLiga(ls, l)[k].data == l;
    }
  }

  /** Saving a page keeps the leagues valid and keeps every league and its match references. */
  lemma {:induction false} SaveAllSpec(ls: seq<League>, ligen: seq<LigaData>)
    requires LeaguesValid(ls)
    ensures var r := SaveAll(ls, ligen);
      && LeaguesValid(r)
      && |r| >= |ls|
      && (forall i :: 0 <= i < |ls| ==> r[i].data.ligaId == ls[i].data.ligaId && r[i].matches == ls[i].matches)
      && (forall i :: |ls| <= i < |r| ==> r[i].matches == [])
    decreases |ligen|
  {
    if ligen != [] {
      SaveLigaSpec(ls, ligen[0]);
      SaveAllSpec(SaveLiga(ls, ligen[0]), ligen[1..]);
    }
  }

  /** Every league of the last page saved, other than association 30, is stored with that page's data. */
  lemma {:induction false} SaveAllStores(ls: seq<League>, ligen: seq<LigaData>, k: nat)
    requires LeaguesValid(ls)
    requires k < |ligen| && ligen[k].verbandId != SkippedVerband
    requires forall j :: k < j < |ligen| ==> ligen[j].ligaId != ligen[k].ligaId
    ensures exists i :: 0 <= i < |SaveAll(ls, ligen)| && SaveAll(ls, ligen)[i].data == ligen[k]
    decreases |ligen|
  {
    assert SaveAll(ls, ligen) == SaveAll(SaveLiga(ls, ligen[0]), ligen[1..]);
    if k == 0 {
      SaveLigaSpec(ls, ligen[0]);
      var mid := SaveLiga(ls, ligen[0]);
      var i :| 0 <= i < |mid| && mid[i].data == ligen[0];
      var rest := ligen[1..];
      assert forall j :: 0 <= j < |rest| ==> rest[j] == ligen[j + 1];
      SaveAllKeepsOthers(mid, rest, i);
    } else {
      SaveLigaSpec(ls, ligen[0]);
      var rest := ligen[1..];
      assert rest[k - 1] == ligen[k];
      assert forall j :: k - 1 < j < |rest| ==> rest[j] == ligen[j + 1];
      SaveAllStores(SaveLiga(ls, ligen[0]), rest, k - 1);
    }
  }

  /** A stored league no later league of the page names keeps its data. */
  lemma {:induction false} SaveAllKeepsOthers(ls: seq<League>, ligen: seq<LigaData>, i: nat)
    requires LeaguesValid(ls) && i < |ls|
    requires forall j :: 0 <= j < |ligen| ==> ligen[j].ligaId != ls[i].data.ligaId
    ensures i < |SaveAll(ls, ligen)| && SaveAll(ls, ligen)[i] == ls[i]
    decreases |ligen|
  {
    if ligen != [] {
      SaveLigaSpec(ls, ligen[0]);
      var mid := SaveLiga(ls, ligen[0]);
      assert mid[i] == ls[i] by {
        if ligen[0].verbandId != SkippedVerband {
          match FindLeague(ls, ligen[0].ligaId)
          case None =>
          case Some(k) => assert k != i;
        }
      }
      SaveAllKeepsOthers(mid, ligen[1..], i);
    }
  }

  /** The whole paged run keeps the leagues valid and keeps every stored league's match references. */
  lemma {:induction false} UpdateLigenValid(ls: seq<League>, src: LigaSource, index: int, fuel: nat)
    requires LeaguesValid(ls)
    ensures var r := UpdateLigenSpec(ls, src, index, fuel);
      && LeaguesValid(r)
      && |r| >= |ls|
      && (forall i :: 0 <= i < |ls| ==> r[i].data.ligaId == ls[i].data.ligaId && r[i].matches == ls[i].matches)
    decreases fuel
  {
    match src(index)
    case None =>
    case Some(p) =>
      SaveAllSpec(ls, p.ligen);
      if p.hasMoreData && fuel > 0 {
        UpdateLigenValid(SaveAll(ls, p.ligen), src, index + p.size, fuel - 1);
      }
  }

  // ---- the stored state --------------------------------------------------------------

  /** The match and league collections the sync writes, and the notices it has sent. */
  class LegacyStore {
    var matches: Matches
    var leagues: seq<League>
    var notices: seq<Notice>

    constructor (ms: Matches, ls: seq<League>)
      ensures matches == ms && leagues == ls && notices == []
    {
      matches := ms;
      leagues := ls;
      notices := [];
    }

    /** `updateLigen(index)`, recursing page by page. */
    method UpdateLigen(src: LigaSource, index: int, fuel: nat)
      modifies this
      ensures leagues == UpdateLigenSpec(old(leagues), src, index, fuel)
      ensures matches == old(matches) && notices == old(notices)
      decreases fuel
    {
      var page := src(index);
      if page.None? {
        return;
      }
      var p := page.value;
      var k := 0;
      while k < |p.ligen|
        invariant 0 <= k <= |p.ligen|
        invariant SaveAll(leagues, p.ligen[k..]) == SaveAll(old(leagues), p.ligen)
        invariant matches == old(matches) && notices == old(notices)
      {
        assert p.ligen[k..][1..] == p.ligen[k + 1..];
        leagues := SaveLiga(leagues, p.ligen[k]);
        k := k + 1;
      }
      if p.hasMoreData && fuel > 0 {
        UpdateLigen(src, index + p.size, fuel - 1);
      }
    }

    /** `matchRef` for league number `li` of the store. */
    method MatchRef(info: MatchInfo, li: nat, freshOid: string)
      requires li < |leagues|
      modifies this
      ensures var r := MatchRefSpec(old(matches), info, freshOid);
        && matches == r.matches
        && notices == old(notices) + r.notices
        && (r.ref.None? ==> leagues == old(leagues))
        && (r.ref.Some? ==> leagues == old(leagues)[li := old(leagues)[li].(matches := AddRef(old(leagues)[li].matches, r.ref.value))])
    {
      var r := MatchRefSpec(matches, info, freshOid);
      matches := r.matches;
      notices := notices + r.notices;
      if r.ref.None? {
        return;
      }
      var refs := leagues[li].matches;
      var at := IndexOf(refs, r.ref.value);
      if at == -1 {
        leagues := leagues[li := leagues[li].(matches := refs + [r.ref.value])];
      }
    }
  }

  /** `xs.indexOf(x)`: the first position of `x`, or -1. */
  method IndexOf(xs: seq<string>, x: string) returns (at: int)
    ensures at == -1 <==> x !in xs
    ensures at != -1 ==> 0 <= at < |xs| && xs[at] == x && x !in xs[..at]
  {
    at := 0;
    while at < |xs|
      invariant 0 <= at <= |xs|
      invariant x !in xs[..at]
    {
      if xs[at] == x {
        return;
      }
      assert xs[..at + 1] == xs[..at] + [xs[at]];
      at := at + 1;
    }
    assert xs[..at] == xs;
    at := -1;
  }
}

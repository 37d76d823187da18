/**
 * The match documents of the legacy MongoDB API (_models/match.model.js):
 * one game with its two referee slots. A slot names the club that has to
 * send the referee (`srK`) and what that club published about it: offered
 * in the bazaar (`srKBasar`), taken (`srKBesetzt`), bonus, contact mail,
 * name and free text.
 */
module LegacyData {
  import opened Wrappers
  import opened Seqs

  /** A Boolean field of a document: absent or null is `None`. */
  predicate IsTrue(f: Option<bool>) {
    f == Some(true)
  }

  datatype Slot = Slot(
    club: Option<string>,
    name: Option<string>,
    basar: Option<bool>,
    besetzt: Option<bool>,
    bonus: Option<int>,
    mail: Option<string>,
    info: Option<string>)

  /** The club has put the slot in the bazaar or marked it as taken. */
  predicate Flagged(s: Slot) {
    IsTrue(s.basar) || IsTrue(s.besetzt)
  }

  /** The slot is offered and still open. */
  predicate Open(s: Slot) {
    s.basar == Some(true) && s.besetzt == Some(false)
  }

  /** A slot as the sync first writes it: only the club, both flags false. */
  function FreshSlot(club: Option<string>): (s: Slot)
    ensures s.club == club && !Flagged(s) && !Open(s)
  {
    Slot(club, None, Some(false), Some(false), None, None, None)
  }

  datatype MatchDoc = MatchDoc(
    oid: string,
    matchId: int,
    matchDay: int,
    matchNo: int,
    kickoffDate: string,
    kickoffTime: string,
    verzicht: bool,
    abgesagt: bool,
    liganame: Option<string>,
    homeTeam: string,
    guestTeam: string,
    spielfeld: Option<string>,
    sr1: Slot,
    sr2: Slot)

  /** The fields of a match document other than the two slots. */
  datatype Head = Head(
    oid: string,
    matchId: int,
    matchDay: int,
    matchNo: int,
    kickoffDate: string,
    kickoffTime: string,
    verzicht: bool,
    abgesagt: bool,
    liganame: Option<string>,
    homeTeam: string,
    guestTeam: string,
    spielfeld: Option<string>)

  function HeadOf(m: MatchDoc): Head {
    Head(m.oid, m.matchId, m.matchDay, m.matchNo, m.kickoffDate, m.kickoffTime, m.verzicht, m.abgesagt,
         m.liganame, m.homeTeam, m.guestTeam, m.spielfeld)
  }

  /** The match collection in natural order; `matchId` is a unique index. */
  type Matches = seq<MatchDoc>

  predicate UniqueIds(ms: Matches) {
    forall i, j :: 0 <= i < j < |ms| ==> ms[i].matchId != ms[j].matchId
  }

  /** `Match.findOne({matchId})` */
  function FindMatch(ms: Matches, matchId: int): (r: Option<nat>)
    ensures r.None? <==> forall i :: 0 <= i < |ms| ==> ms[i].matchId != matchId
    ensures r.Some? ==> r.value < |ms| && ms[r.value].matchId == matchId
  {
    FirstIndex(ms, (m: MatchDoc) => m.matchId == matchId)
  }
}

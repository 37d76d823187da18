/**
 * `saveGamesToDatabase` and `orphanRemoval` of src/services/teamSLService.js:
 * the loop that reconciles the `spiele`, `vereine` and `sr_qualifikationen`
 * tables with one batch of open-games records.
 *
 * `Step` and `Run` specify the loop on values; `SyncStore` is the imperative
 * loop over the three tables, proved to end in the state `SaveGames` computes.
 */
module Reconciliation {
  import opened Wrappers
  import opened SyncData
  import License
  import opened Seqs

  /** The horizon for which orphans are removed. */
  const ALL: string := "all"

  /** The counters `savedGames`, `savedVereine` and `savedSrQualifikationen`. */
  datatype Counters = Counters(savedGames: nat, savedVereine: nat, savedSrQualifikationen: nat)

  const NoneSaved: Counters := Counters(0, 0, 0)

  datatype State = State(tables: Tables, counters: Counters)

  /**
   * The error a record raises, which the loop rethrows: reading
   * `gastVerein.hideLink` when neither club is present throws a TypeError;
   * a Spiel row that cannot be stored (see `Storable`) is refused by the
   * `allowNull: false` validation or by a foreign key.
   */
  datatype SyncError = MissingClubs(spielplanId: int) | RejectedRow(spielplanId: int)

  /** A failed run: the tables as the failing record found them, and the error. */
  datatype Failure = Failure(state: State, error: SyncError)

  // ---- the tests on one record ---------------------------------------------

  /** Some slot is offered openly and has no referee yet. */
  predicate IsOpen(g: GameRecord) {
    (g.sr1OffenAngeboten && g.sr1.None?) ||
    (g.sr2OffenAngeboten && g.sr2.None?) ||
    (g.sr3OffenAngeboten && g.sr3.None?)
  }

  /** Both clubs are missing: the record makes the run throw. */
  predicate Fatal(g: GameRecord) {
    IsOpen(g) && g.sp.sr1Verein.None? && g.sp.sr2Verein.None?
  }

  /** The club is present and its stored row hides the link. */
  predicate HiddenClub(vereine: map<int, VereinRow>, o: Option<VereinData>) {
    o.Some? && o.value.vereinId in vereine && vereine[o.value.vereinId].hideLink
  }

  /**
   * The visibility rule: a game is dropped when both clubs hide the link, or
   * when one club is missing and the other hides it.
   */
  predicate Visible(vereine: map<int, VereinRow>, g: GameRecord) {
    var heim, gast := HiddenClub(vereine, g.sp.sr1Verein), HiddenClub(vereine, g.sp.sr2Verein);
    !(heim && gast) && !(g.sp.sr1Verein.None? && gast) && !(g.sp.sr2Verein.None? && heim)
  }

  // ---- upserts -------------------------------------------------------------

  /** A table after `findOrCreate`, and whether the row was created. */
  datatype Upsert<T> = Upsert(table: map<int, T>, created: bool)

  /**
   * The row `findOrCreate` inserts from its defaults: a left-out district id
   * is null, and `hideLink` takes its column default, false.
   */
  function CreatedClub(v: VereinData): VereinRow {
    VereinRow(v.vereinsnummer, v.vereinsname, v.verbandId, v.kreisId.ToOption(), v.bezirkId.ToOption(), false)
  }

  /**
   * `verein.update` of the five synced fields. The update drops `undefined`
   * values, so a district id the record leaves out keeps its stored value.
   */
  function UpdatedClub(stored: VereinRow, v: VereinData): VereinRow {
    stored.(vereinsnummer := v.vereinsnummer, vereinsname := v.vereinsname, verbandId := v.verbandId,
            kreisId := v.kreisId.Over(stored.kreisId), bezirkId := v.bezirkId.Over(stored.bezirkId))
  }

  /**
   * `findOrCreate` with the club defaults, then `update` of the five fields:
   * the club's row holds the record's number, name and association, the
   * district ids the record sends (a left-out one stays as stored, or null
   * for a new club) and its own `hideLink` (false for a new club); every
   * other club is untouched.
   */
  function UpsertVerein(vereine: map<int, VereinRow>, v: VereinData): (r: Upsert<VereinRow>)
    ensures r.created <==> v.vereinId !in vereine
    ensures r.table.Keys == vereine.Keys + {v.vereinId}
    ensures |r.table.Keys| == |vereine.Keys| + Bump(r.created)
    ensures var row := r.table[v.vereinId];
      && row.vereinsnummer == v.vereinsnummer && row.vereinsname == v.vereinsname && row.verbandId == v.verbandId
      && row.kreisId == (if v.kreisId.Unsent? && v.vereinId in vereine then vereine[v.vereinId].kreisId else v.kreisId.ToOption())
      && row.bezirkId == (if v.bezirkId.Unsent? && v.vereinId in vereine then vereine[v.vereinId].bezirkId else v.bezirkId.ToOption())
      && row.hideLink == (v.vereinId in vereine && vereine[v.vereinId].hideLink)
    ensures forall id :: id in vereine && id != v.vereinId ==> r.table[id] == vereine[id]
    ensures HideLinksKept(vereine, r.table)
  {
    if v.vereinId in vereine then
      Upsert(vereine[v.vereinId := UpdatedClub(vereine[v.vereinId], v)], false)
    else
      Upsert(vereine[v.vereinId := CreatedClub(v)], true)
  }

  /** The club upsert of one slot; an absent club writes nothing. */
  function UpsertClub(vereine: map<int, VereinRow>, o: Option<VereinData>): (r: Upsert<VereinRow>)
    ensures r.created ==> o.Some? && o.value.vereinId !in vereine
    ensures o.None? ==> r.table == vereine
    ensures o.Some? ==> r.table == UpsertVerein(vereine, o.value).table
    ensures forall id :: id in vereine && (o.None? || id != o.value.vereinId) ==> r.table[id] == vereine[id]
    ensures |r.table.Keys| == |vereine.Keys| + Bump(r.created)
    ensures HideLinksKept(vereine, r.table)
  {
    if o.Some? then UpsertVerein(vereine, o.value) else Upsert(vereine, false)
  }

  /**
   * Every club keeps its `hideLink`, and a club that was not there before
   * does not hide its link.
   */
  ghost predicate HideLinksKept(before: map<int, VereinRow>, after: map<int, VereinRow>) {
    before.Keys <= after.Keys &&
    (forall id :: id in before ==> after[id].hideLink == before[id].hideLink) &&
    (forall id :: id in after && id !in before ==> !after[id].hideLink)
  }

  lemma HideLinksKeptTrans(a: map<int, VereinRow>, b: map<int, VereinRow>, c: map<int, VereinRow>)
    requires HideLinksKept(a, b) && HideLinksKept(b, c)
    ensures HideLinksKept(a, c)
  {
  }

  /** Visibility only depends on `hideLink`, so it survives the club upserts. */
  lemma VisibleKept(before: map<int, VereinRow>, after: map<int, VereinRow>, g: GameRecord)
    requires HideLinksKept(before, after)
    ensures Visible(after, g) <==> Visible(before, g)
  {
    assert HiddenClub(after, g.sp.sr1Verein) == HiddenClub(before, g.sp.sr1Verein);
    assert HiddenClub(after, g.sp.sr2Verein) == HiddenClub(before, g.sp.sr2Verein);
  }

  /** The qualification of the league, if the record has one. */
  function QualOf(g: GameRecord): Option<QualData> {
    if g.sp.liga.Some? then g.sp.liga.value.srQualifikation else None
  }

  /** `findOrCreate` on `sr_qualifikationen`, then `update` of both fields. */
  function UpsertQual(quals: map<int, QualRow>, o: Option<QualData>): (r: Upsert<QualRow>)
    ensures r.created <==> o.Some? && o.value.srQualifikationId !in quals
    ensures o.None? ==> r.table == quals
    ensures o.Some? ==> r.table.Keys == quals.Keys + {o.value.srQualifikationId}
    ensures |r.table.Keys| == |quals.Keys| + Bump(r.created)
  {
    if o.None? then Upsert(quals, false)
    else Upsert(quals[o.value.srQualifikationId := QualRow(o.value.bezeichnung, o.value.kurzBezeichnung)],
                o.value.srQualifikationId !in quals)
  }

  // ---- the Spiel row -------------------------------------------------------

  /** JavaScript `s || d` on an optional string. */
  function Or(o: Option<string>, d: string): string {
    if o.Some? && o.value != "" then o.value else d
  }

  /** `club?.vereinId || null`. */
  function IdOrNull(o: Option<VereinData>): Option<int> {
    if o.Some? && o.value.vereinId != 0 then Some(o.value.vereinId) else None
  }

  /** `club?.vereinId || 0`. */
  function IdOrZero(o: Option<VereinData>): Option<int> {
    Some(if o.Some? then o.value.vereinId else 0)
  }

  /** `club?.vereinsname || null`. */
  function NameOrNull(o: Option<VereinData>): Option<string> {
    if o.Some? && o.value.vereinsname != "" then Some(o.value.vereinsname) else None
  }

  /** `sp.liga?.liganame || ""`. */
  function LigaName(g: GameRecord): string {
    if g.sp.liga.Some? then Or(g.sp.liga.value.liganame, "") else ""
  }

  /** The licence the game needs: `fieldFn({ liganame: ligaName })`. */
  function Lizenz(g: GameRecord): (r: string)
    ensures r == License.LSE || r == License.LSD || r == License.UpperLabel
  {
    License.FieldFn(License.LeagueData(Some(LigaName(g)), None))
  }

  function Spielfeld(g: GameRecord): SpielfeldData {
    if g.sp.spielfeld.Some? then g.sp.spielfeld.value else SpielfeldData(None, None, None, None)
  }

  /** The attributes of `Spiel.findOrCreate`'s defaults. */
  function CreatedRow(g: GameRecord, qualId: Option<int>): SpielRow {
    var f := Spielfeld(g);
    SpielRow(
      Some(g.sp.spieldatum), IdOrNull(g.sp.sr1Verein), IdOrNull(g.sp.sr2Verein),
      Or(g.sp.heimMannschaftName, ""), Or(g.sp.gastMannschaftName, ""),
      LigaName(g), Or(f.bezeichnung, ""), Or(f.strasse, ""), Or(f.plz, ""), Or(f.ort, ""),
      qualId, Lizenz(g),
      g.sr1OffenAngeboten, g.sr2OffenAngeboten, g.sr3OffenAngeboten,
      IdOrNull(g.sp.sr1Verein), IdOrNull(g.sp.sr2Verein), IdOrNull(g.sp.sr3Verein),
      NameOrNull(g.sp.sr1Verein), NameOrNull(g.sp.sr2Verein), NameOrNull(g.sp.sr3Verein),
      g)
  }

  /**
   * The attributes of `spiel.update`: as on creation, except that a missing
   * home or guest club gives id 0 and the date is the top-level `spieldatum`.
   * `update` drops an absent value, so without one the stored date stays.
   */
  function UpdatedRow(stored: SpielRow, g: GameRecord, qualId: Option<int>): SpielRow {
    CreatedRow(g, qualId).(
      spieldatum := if g.spieldatum.Some? then g.spieldatum else stored.spieldatum,
      heimVereinId := IdOrZero(g.sp.sr1Verein),
      gastVereinId := IdOrZero(g.sp.sr2Verein))
  }

  /** The `srQualifikationId` of the record's league, if it has a qualification. */
  function QualId(g: GameRecord): Option<int> {
    if QualOf(g).Some? then Some(QualOf(g).value.srQualifikationId) else None
  }

  /** The row `Spiel.findOrCreate` (and, for an existing game, `spiel.update`) writes. */
  function NewRow(spiele: map<int, SpielRow>, g: GameRecord): SpielRow {
    var id := g.sp.spielplanId;
    if id in spiele then UpdatedRow(spiele[id], g, QualId(g)) else CreatedRow(g, QualId(g))
  }

  /** The keys of the row a record writes: the ones the schema constrains. */
  lemma NewRowKeys(spiele: map<int, SpielRow>, g: GameRecord)
    ensures var row := NewRow(spiele, g);
      && row.heimVereinId == (if g.sp.spielplanId in spiele then IdOrZero(g.sp.sr1Verein) else IdOrNull(g.sp.sr1Verein))
      && row.gastVereinId == (if g.sp.spielplanId in spiele then IdOrZero(g.sp.sr2Verein) else IdOrNull(g.sp.sr2Verein))
      && row.sr1VereinId == IdOrNull(g.sp.sr1Verein) && row.sr2VereinId == IdOrNull(g.sp.sr2Verein)
      && row.sr3VereinId == IdOrNull(g.sp.sr3Verein) && row.srQualifikationId == QualId(g)
      && row.rawData == g
  {
  }

  /** A foreign-key value: null, or the key of a stored row. */
  predicate RefersTo<T>(table: map<int, T>, id: Option<int>) {
    id.None? || id.value in table
  }

  /**
   * A Spiel row the database accepts: `heimVereinId` and `gastVereinId` are
   * not null (`allowNull: false` in src/models/Spiel.js), and every club and
   * qualification it names is a stored row (the `belongsTo` foreign keys of
   * src/models/index.js).
   */
  predicate Storable(t: Tables, row: SpielRow) {
    && row.heimVereinId.Some? && row.gastVereinId.Some?
    && RefersTo(t.vereine, row.heimVereinId) && RefersTo(t.vereine, row.gastVereinId)
    && RefersTo(t.vereine, row.sr1VereinId) && RefersTo(t.vereine, row.sr2VereinId)
    && RefersTo(t.vereine, row.sr3VereinId) && RefersTo(t.quals, row.srQualifikationId)
  }

  /** A row stays storable when clubs and qualifications are only added. */
  lemma StorableGrows(t1: Tables, t2: Tables, row: SpielRow)
    requires t1.vereine.Keys <= t2.vereine.Keys && t1.quals.Keys <= t2.quals.Keys
    requires Storable(t1, row)
    ensures Storable(t2, row)
  {
  }

  // ---- one record ----------------------------------------------------------

  function Bump(created: bool): nat {
    if created then 1 else 0
  }

  function Remove(t: Tables, id: int): Tables {
    t.(spiele := t.spiele - {id})
  }

  /**
   * One pass of the loop body of `saveGamesToDatabase`. A failure carries the
   * tables as the record left them when it threw: the upserts before the
   * throw are not undone.
   */
  function Step(s: State, g: GameRecord): (r: Result<State, Failure>)
    ensures Fatal(g) ==> r == Err(Failure(s, MissingClubs(g.sp.spielplanId)))
    ensures r.Err? ==> (r.error.error.spielplanId == g.sp.spielplanId &&
      (r.error.error.MissingClubs? <==> Fatal(g)))
  {
    if !IsOpen(g) then Ok(State(Remove(s.tables, g.sp.spielplanId), s.counters))
    else Decide(UpsertClubs(s, g), g)
  }

  /** The tables after the club upserts, and the two `hideLink` tests' inputs. */
  datatype ClubsDone = ClubsDone(state: State, heimHidden: bool, gastHidden: bool)

  /**
   * The home club is upserted, then the guest club; each `hideLink` is read
   * from the row its own upsert left. Both read the flag stored before the
   * record, and only the club table and its counter change.
   */
  function UpsertClubs(s: State, g: GameRecord): (r: ClubsDone)
    ensures HideLinksKept(s.tables.vereine, r.state.tables.vereine)
    ensures r.heimHidden == HiddenClub(s.tables.vereine, g.sp.sr1Verein)
    ensures r.gastHidden == HiddenClub(s.tables.vereine, g.sp.sr2Verein)
    ensures r.state.tables.spiele == s.tables.spiele && r.state.tables.quals == s.tables.quals
    ensures r.state.counters.savedGames == s.counters.savedGames
    ensures r.state.counters.savedSrQualifikationen == s.counters.savedSrQualifikationen
    ensures |r.state.tables.vereine.Keys| - |s.tables.vereine.Keys| ==
      r.state.counters.savedVereine - s.counters.savedVereine
    ensures g.sp.sr1Verein.None? && g.sp.sr2Verein.None? ==> r.state == s
    ensures g.sp.sr1Verein.Some? ==> g.sp.sr1Verein.value.vereinId in r.state.tables.vereine
    ensures g.sp.sr2Verein.Some? ==> g.sp.sr2Verein.value.vereinId in r.state.tables.vereine
  {
    var heim := UpsertClub(s.tables.vereine, g.sp.sr1Verein);
    var gast := UpsertClub(heim.table, g.sp.sr2Verein);
    HideLinksKeptTrans(s.tables.vereine, heim.table, gast.table);
    HiddenAfterUpserts(s.tables.vereine, heim.table, gast.table, g);
    ClubsDone(
      State(s.tables.(vereine := gast.table),
            s.counters.(savedVereine := s.counters.savedVereine + Bump(heim.created) + Bump(gast.created))),
      HiddenClub(heim.table, g.sp.sr1Verein),
      HiddenClub(gast.table, g.sp.sr2Verein))
  }

  /** `UpsertClubs` as its two upserts, for the method that performs them. */
  lemma UpsertClubsSteps(s: State, g: GameRecord, heim: Upsert<VereinRow>, gast: Upsert<VereinRow>)
    requires heim == UpsertClub(s.tables.vereine, g.sp.sr1Verein) && gast == UpsertClub(heim.table, g.sp.sr2Verein)
    ensures UpsertClubs(s, g) == ClubsDone(
      State(s.tables.(vereine := gast.table),
            s.counters.(savedVereine := s.counters.savedVereine + Bump(heim.created) + Bump(gast.created))),
      HiddenClub(heim.table, g.sp.sr1Verein),
      HiddenClub(gast.table, g.sp.sr2Verein))
  {
  }

  /**
   * The `hideLink` tests, in the order of the source: both hidden; home
   * missing (a TypeError when the guest is missing too, else the guest's
   * flag); guest missing and home hidden. A hidden game is deleted.
   */
  function Decide(d: ClubsDone, g: GameRecord): (r: Result<State, Failure>)
    ensures g.sp.sr1Verein.None? && g.sp.sr2Verein.None? && !(d.heimHidden && d.gastHidden) <==>
      r.Err? && r.error.error.MissingClubs?
    ensures r.Err? ==> r.error.error.spielplanId == g.sp.spielplanId
    ensures r.Err? && r.error.error.MissingClubs? ==> r.error.state == d.state
  {
    var id := g.sp.spielplanId;
    if d.heimHidden && d.gastHidden then Ok(d.state.(tables := Remove(d.state.tables, id)))
    else if g.sp.sr1Verein.None? && g.sp.sr2Verein.None? then Err(Failure(d.state, MissingClubs(id)))
    else if g.sp.sr1Verein.None? && d.gastHidden then Ok(d.state.(tables := Remove(d.state.tables, id)))
    else if g.sp.sr2Verein.None? && d.heimHidden then Ok(d.state.(tables := Remove(d.state.tables, id)))
    else SaveSpiel(d.state, g)
  }

  /** The qualification upsert of a kept record, with its counter. */
  function QualStep(s: State, g: GameRecord): (r: State)
    ensures r.tables.spiele == s.tables.spiele && r.tables.vereine == s.tables.vereine
    ensures r.counters.savedGames == s.counters.savedGames && r.counters.savedVereine == s.counters.savedVereine
    ensures RefersTo(r.tables.quals, QualId(g))
    ensures s.tables.quals.Keys <= r.tables.quals.Keys
    ensures |r.tables.quals.Keys| - |s.tables.quals.Keys| ==
      r.counters.savedSrQualifikationen - s.counters.savedSrQualifikationen
  {
    var qual := UpsertQual(s.tables.quals, QualOf(g));
    State(s.tables.(quals := qual.table),
          s.counters.(savedSrQualifikationen := s.counters.savedSrQualifikationen + Bump(qual.created)))
  }

  /**
   * The record is kept: qualification upsert, licence, then the Spiel upsert.
   * A row the database refuses fails the record, after the qualification has
   * been written; a stored row holds the record.
   */
  function SaveSpiel(s: State, g: GameRecord): (r: Result<State, Failure>)
    ensures r.Err? ==> (r.error.error == RejectedRow(g.sp.spielplanId) &&
      r.error.state.tables.spiele == s.tables.spiele && r.error.state.tables.vereine == s.tables.vereine)
    ensures r.Err? <==> !Storable(QualStep(s, g).tables, NewRow(s.tables.spiele, g))
    ensures r.Ok? ==> var t := r.value.tables;
      && t.vereine == s.tables.vereine && r.value.counters.savedVereine == s.counters.savedVereine
      && g.sp.spielplanId in t.spiele && t.spiele[g.sp.spielplanId].rawData == g
      && Storable(t, t.spiele[g.sp.spielplanId])
      && (forall id :: id != g.sp.spielplanId ==>
           (id in t.spiele <==> id in s.tables.spiele) && (id in t.spiele ==> t.spiele[id] == s.tables.spiele[id]))
      && r.value.counters.savedGames == s.counters.savedGames + Bump(g.sp.spielplanId !in s.tables.spiele)
      && s.tables.quals.Keys <= t.quals.Keys
      && |t.quals.Keys| - |s.tables.quals.Keys| ==
           r.value.counters.savedSrQualifikationen - s.counters.savedSrQualifikationen
  {
    var id := g.sp.spielplanId;
    var q := QualStep(s, g);
    var row := NewRow(s.tables.spiele, g);
    if !Storable(q.tables, row) then Err(Failure(q, RejectedRow(id)))
    else Ok(State(q.tables.(spiele := q.tables.spiele[id := row]),
                  q.counters.(savedGames := q.counters.savedGames + Bump(id !in q.tables.spiele))))
  }

  /**
   * A record that offers no open slot deletes its Spiel and writes nothing
   * else.
   */
  lemma NotOpenRemoves(s: State, g: GameRecord)
    requires !IsOpen(g)
    ensures Step(s, g) == Ok(State(Remove(s.tables, g.sp.spielplanId), s.counters))
  {
  }

  /** Every club the record names has a non-zero `vereinId`. */
  predicate ClubIdsNonZero(g: GameRecord) {
    (g.sp.sr1Verein.Some? ==> g.sp.sr1Verein.value.vereinId != 0) &&
    (g.sp.sr2Verein.Some? ==> g.sp.sr2Verein.value.vereinId != 0)
  }

  /**
   * An open, visible record with exactly one club missing fails: a new game
   * gets a null club id, an existing one the id 0, which names no club.
   */
  lemma OneClubMissingRejected(s: State, g: GameRecord)
    requires IsOpen(g) && Visible(s.tables.vereine, g)
    requires g.sp.sr1Verein.None? != g.sp.sr2Verein.None?
    requires g.sp.spielplanId in s.tables.spiele ==> ClubIdsNonZero(g) && 0 !in s.tables.vereine
    ensures Step(s, g).Err? && Step(s, g).error.error == RejectedRow(g.sp.spielplanId)
  {
    var d := UpsertClubs(s, g);
    assert Step(s, g) == Decide(d, g) == SaveSpiel(d.state, g);
    NewRowKeys(d.state.tables.spiele, g);
    assert !Storable(QualStep(d.state, g).tables, NewRow(d.state.tables.spiele, g));
  }

  /**
   * An open, visible record naming both clubs with non-zero ids, and a third
   * club that is absent or stored, is stored.
   */
  lemma BothClubsStored(s: State, g: GameRecord)
    requires IsOpen(g) && Visible(s.tables.vereine, g)
    requires g.sp.sr1Verein.Some? && g.sp.sr2Verein.Some? && ClubIdsNonZero(g)
    requires RefersTo(s.tables.vereine, IdOrNull(g.sp.sr3Verein))
    ensures Step(s, g).Ok? && g.sp.spielplanId in Step(s, g).value.tables.spiele
  {
    var d := UpsertClubs(s, g);
    assert Step(s, g) == Decide(d, g) == SaveSpiel(d.state, g);
    var q := QualStep(d.state, g);
    NewRowKeys(d.state.tables.spiele, g);
    assert s.tables.vereine.Keys <= q.tables.vereine.Keys;
    assert Storable(q.tables, NewRow(d.state.tables.spiele, g));
  }

  /**
   * After one record, its Spiel is stored iff the record is open and visible
   * under the flags stored before it. The row then holds the record, can be
   * stored, and keeps the stored date when an update brings none; every
   * other Spiel is untouched.
   */
  lemma {:induction false} StepSpiele(s: State, g: GameRecord)
    requires Step(s, g).Ok?
    ensures var t := Step(s, g).value.tables; var id := g.sp.spielplanId;
      (id in t.spiele <==> IsOpen(g) && Visible(s.tables.vereine, g)) &&
      (id in t.spiele ==> t.spiele[id].rawData == g && Storable(t, t.spiele[id])) &&
      (id in t.spiele && id in s.tables.spiele && g.spieldatum.None? ==>
        t.spiele[id].spieldatum == s.tables.spiele[id].spieldatum) &&
      (forall other :: other != id ==>
        (other in t.spiele <==> other in s.tables.spiele) &&
        (other in s.tables.spiele ==> t.spiele[other] == s.tables.spiele[other]))
  {
    if IsOpen(g) {
      var d := UpsertClubs(s, g);
    }
  }

  /**
   * A record never changes a club's `hideLink`, and a new club does not hide,
   * whether the record succeeds or fails; a successful one only adds
   * qualifications.
   */
  lemma {:induction false} StepKeepsHideLinks(s: State, g: GameRecord)
    ensures Step(s, g).Ok? ==>
      HideLinksKept(s.tables.vereine, Step(s, g).value.tables.vereine) &&
      s.tables.quals.Keys <= Step(s, g).value.tables.quals.Keys
    ensures Step(s, g).Err? ==> HideLinksKept(s.tables.vereine, Step(s, g).error.state.tables.vereine)
  {
    if IsOpen(g) {
      var d := UpsertClubs(s, g);
    }
  }

  /**
   * `savedGames` rises exactly when a new Spiel row appears; the club and
   * qualification counters rise by the number of rows created.
   */
  lemma {:induction false} StepCounters(s: State, g: GameRecord)
    requires Step(s, g).Ok?
    ensures var r := Step(s, g).value;
      r.counters.savedGames == s.counters.savedGames +
        Bump(g.sp.spielplanId !in s.tables.spiele && g.sp.spielplanId in r.tables.spiele) &&
      r.counters.savedVereine - s.counters.savedVereine == |r.tables.vereine.Keys| - |s.tables.vereine.Keys| &&
      r.counters.savedSrQualifikationen - s.counters.savedSrQualifikationen ==
        |r.tables.quals.Keys| - |s.tables.quals.Keys|
  {
    if IsOpen(g) {
      var d := UpsertClubs(s, g);
      if (d.heimHidden && d.gastHidden) || (g.sp.sr1Verein.None? && d.gastHidden) || (g.sp.sr2Verein.None? && d.heimHidden) {
        assert Step(s, g).value == d.state.(tables := Remove(d.state.tables, g.sp.spielplanId));
      } else {
        assert Step(s, g) == SaveSpiel(d.state, g);
      }
    }
  }

  /** The flags read after the upserts are the flags stored before the record. */
  lemma HiddenAfterUpserts(v0: map<int, VereinRow>, v1: map<int, VereinRow>, v2: map<int, VereinRow>, g: GameRecord)
    requires HideLinksKept(v0, v1) && HideLinksKept(v1, v2)
    ensures HiddenClub(v1, g.sp.sr1Verein) == HiddenClub(v0, g.sp.sr1Verein)
    ensures HiddenClub(v2, g.sp.sr2Verein) == HiddenClub(v0, g.sp.sr2Verein)
  {
  }

  // ---- the whole batch -----------------------------------------------------

  /** The loop over the records, in order; the first error stops it. */
  function Run(s: State, gs: seq<GameRecord>): Result<State, Failure> {
    FoldResult(Step, s, gs)
  }

  /** The `spielplanId`s of a batch. */
  function Ids(gs: seq<GameRecord>): set<int> {
    set g | g in gs :: g.sp.spielplanId
  }

  /** `Spiel.destroy` of every row whose `spielplanId` is not in the batch. */
  function OrphanRemoval(t: Tables, gs: seq<GameRecord>): (r: Tables)
    ensures r.spiele.Keys == t.spiele.Keys * Ids(gs)
    ensures forall id :: id in r.spiele ==> r.spiele[id] == t.spiele[id]
    ensures r.vereine == t.vereine && r.quals == t.quals
  {
    t.(spiele := map id | id in t.spiele && id in Ids(gs) :: t.spiele[id])
  }

  /**
   * `saveGamesToDatabase(gamesData, zeitraum)` on the given tables: the loop
   * with fresh counters, then orphan removal for the "all" horizon only.
   */
  function SaveGames(t: Tables, gs: seq<GameRecord>, zeitraum: string): Result<State, Failure> {
    match Run(State(t, NoneSaved), gs)
    case Err(f) => Err(f)
    case Ok(s) => Ok(if zeitraum == ALL then s.(tables := OrphanRemoval(s.tables, gs)) else s)
  }

  /** The last record of the batch with the given `spielplanId`. */
  function LastWith(gs: seq<GameRecord>, id: int): Option<GameRecord>
    decreases |gs|
  {
    if gs == [] then None
    else if gs[|gs| - 1].sp.spielplanId == id then Some(gs[|gs| - 1])
    else LastWith(gs[..|gs| - 1], id)
  }

  lemma {:induction false} LastWithSpec(gs: seq<GameRecord>, id: int)
    ensures LastWith(gs, id).Some? <==> id in Ids(gs)
    ensures LastWith(gs, id).Some? ==>
      LastWith(gs, id).value in gs && LastWith(gs, id).value.sp.spielplanId == id
    decreases |gs|
  {
    if gs != [] {
      var init := gs[..|gs| - 1];
      LastWithSpec(init, id);
      assert gs == init + [gs[|gs| - 1]];
      assert Ids(gs) == Ids(init) + {gs[|gs| - 1].sp.spielplanId};
    }
  }

  /**
   * Every stored row whose id occurs in the batch holds the last record with
   * that id, which is open and visible under the initial flags, and the row
   * can be stored in the tables as they are.
   */
  ghost predicate StoredAreLast(v0: map<int, VereinRow>, t: Tables, gs: seq<GameRecord>) {
    forall id :: id in t.spiele && id in Ids(gs) ==>
      LastWith(gs, id).Some? && t.spiele[id].rawData == LastWith(gs, id).value &&
      IsOpen(LastWith(gs, id).value) && Visible(v0, LastWith(gs, id).value) &&
      Storable(t, t.spiele[id])
  }

  /** Rows whose id is not in the batch are exactly as they were. */
  ghost predicate OthersUntouched(spiele0: map<int, SpielRow>, spiele: map<int, SpielRow>, gs: seq<GameRecord>) {
    forall id :: id !in Ids(gs) ==>
      (id in spiele <==> id in spiele0) && (id in spiele0 ==> spiele[id] == spiele0[id])
  }

  /** What a successful run from `s0` over `gs` leaves behind in `s`. */
  ghost predicate RunSound(s0: State, s: State, gs: seq<GameRecord>) {
    HideLinksKept(s0.tables.vereine, s.tables.vereine) &&
    StoredAreLast(s0.tables.vereine, s.tables, gs) &&
    OthersUntouched(s0.tables.spiele, s.tables.spiele, gs) &&
    s.counters.savedVereine - s0.counters.savedVereine == |s.tables.vereine.Keys| - |s0.tables.vereine.Keys| &&
    s.counters.savedSrQualifikationen - s0.counters.savedSrQualifikationen == |s.tables.quals.Keys| - |s0.tables.quals.Keys|
  }

  /**
   * One more successful record keeps `RunSound`; `s2` is the state after the
   * record, described by what `StepKeepsHideLinks`, `StepSpiele` and
   * `StepCounters` state about it.
   */
  lemma RunSoundStep(s0: State, s1: State, s2: State, init: seq<GameRecord>, g: GameRecord)
    requires RunSound(s0, s1, init)
    requires HideLinksKept(s1.tables.vereine, s2.tables.vereine) && s1.tables.quals.Keys <= s2.tables.quals.Keys
    requires var id := g.sp.spielplanId; var t := s2.tables;
      (id in t.spiele <==> IsOpen(g) && Visible(s1.tables.vereine, g)) &&
      (id in t.spiele ==> t.spiele[id].rawData == g && Storable(t, t.spiele[id])) &&
      (forall other :: other != id ==>
        (other in t.spiele <==> other in s1.tables.spiele) &&
        (other in s1.tables.spiele ==> t.spiele[other] == s1.tables.spiele[other]))
    requires s2.counters.savedVereine - s1.counters.savedVereine == |s2.tables.vereine.Keys| - |s1.tables.vereine.Keys|
    requires s2.counters.savedSrQualifikationen - s1.counters.savedSrQualifikationen ==
      |s2.tables.quals.Keys| - |s1.tables.quals.Keys|
    ensures RunSound(s0, s2, init + [g])
  {
    var gs := init + [g];
    HideLinksKeptTrans(s0.tables.vereine, s1.tables.vereine, s2.tables.vereine);
    VisibleKept(s0.tables.vereine, s1.tables.vereine, g);
    assert Ids(gs) == Ids(init) + {g.sp.spielplanId};
    forall id | id in s2.tables.spiele && id in Ids(gs)
      ensures LastWith(gs, id).Some? && s2.tables.spiele[id].rawData == LastWith(gs, id).value &&
        IsOpen(LastWith(gs, id).value) && Visible(s0.tables.vereine, LastWith(gs, id).value) &&
        Storable(s2.tables, s2.tables.spiele[id])
    {
      if id != g.sp.spielplanId {
        assert LastWith(gs, id) == LastWith(init, id);
        StorableGrows(s1.tables, s2.tables, s2.tables.spiele[id]);
      }
    }
  }

  /** What a successful run leaves behind, and what a failed one keeps. */
  lemma {:induction false} RunInvariant(s0: State, gs: seq<GameRecord>)
    ensures Run(s0, gs).Ok? ==>
      var s := Run(s0, gs).value;
      HideLinksKept(s0.tables.vereine, s.tables.vereine) &&
      StoredAreLast(s0.tables.vereine, s.tables, gs) &&
      OthersUntouched(s0.tables.spiele, s.tables.spiele, gs) &&
      s.counters.savedVereine - s0.counters.savedVereine == |s.tables.vereine.Keys| - |s0.tables.vereine.Keys| &&
      s.counters.savedSrQualifikationen - s0.counters.savedSrQualifikationen == |s.tables.quals.Keys| - |s0.tables.quals.Keys|
    ensures Run(s0, gs).Err? ==> HideLinksKept(s0.tables.vereine, Run(s0, gs).error.state.tables.vereine)
    decreases |gs|
  {
    if gs != [] {
      var init, g := gs[..|gs| - 1], gs[|gs| - 1];
      assert gs == init + [g];
      RunInvariant(s0, init);
      if Run(s0, init).Ok? {
        var s1 := Run(s0, init).value;
        assert Run(s0, gs) == Step(s1, g);
        StepKeepsHideLinks(s1, g);
        if Step(s1, g).Ok? {
          StepSpiele(s1, g);
          StepCounters(s1, g);
          RunSoundStep(s0, s1, Step(s1, g).value, init, g);
        } else {
          HideLinksKeptTrans(s0.tables.vereine, s1.tables.vereine, Step(s1, g).error.state.tables.vereine);
        }
      }
    }
  }

  /** The index of the first fatal record, if any. */
  function FirstFatal(gs: seq<GameRecord>): (r: Option<nat>)
    ensures r.Some? ==> r.value < |gs| && Fatal(gs[r.value]) && forall j :: 0 <= j < r.value ==> !Fatal(gs[j])
    ensures r.None? ==> forall j :: 0 <= j < |gs| ==> !Fatal(gs[j])
    decreases |gs|
  {
    if gs == [] then None
    else
      var init := gs[..|gs| - 1];
      if FirstFatal(init).Some? then FirstFatal(init)
      else if Fatal(gs[|gs| - 1]) then Some(|gs| - 1)
      else None
  }

  /**
   * A record naming neither club always fails the run, and when the records
   * before the first such record succeed, the run stops there with their
   * tables.
   */
  lemma FatalStopsRun(s0: State, gs: seq<GameRecord>)
    requires FirstFatal(gs).Some?
    ensures Run(s0, gs).Err?
    ensures var i := FirstFatal(gs).value;
      Run(s0, gs[..i]).Ok? ==>
        Run(s0, gs).error == Failure(Run(s0, gs[..i]).value, MissingClubs(gs[i].sp.spielplanId))
  {
    var i := FirstFatal(gs).value;
    var pre := gs[..i + 1];
    assert pre[..|pre| - 1] == gs[..i] && pre[|pre| - 1] == gs[i];
    ErrorAbortsRest(Step, s0, pre, gs[i + 1..]);
    assert pre + gs[i + 1..] == gs;
  }

  /**
   * After a successful "all" cycle only Spiele of the batch remain; each
   * holds the last record with its id, which offers an open slot and is not
   * hidden, and names only stored clubs; no club's `hideLink` has changed.
   */
  lemma AllCycle(t: Tables, gs: seq<GameRecord>, s: State)
    requires SaveGames(t, gs, ALL) == Ok(s)
    ensures s.tables.spiele.Keys <= Ids(gs)
    ensures HideLinksKept(t.vereine, s.tables.vereine)
    ensures forall id :: id in s.tables.spiele ==>
      LastWith(gs, id).Some? && s.tables.spiele[id].rawData == LastWith(gs, id).value &&
      IsOpen(LastWith(gs, id).value) && Visible(s.tables.vereine, LastWith(gs, id).value) &&
      Storable(s.tables, s.tables.spiele[id])
  {
    var s0 := State(t, NoneSaved);
    RunInvariant(s0, gs);
    var s1 := Run(s0, gs).value;
    forall id | id in s.tables.spiele
      ensures LastWith(gs, id).Some? && s.tables.spiele[id].rawData == LastWith(gs, id).value &&
        IsOpen(LastWith(gs, id).value) && Visible(s.tables.vereine, LastWith(gs, id).value) &&
        Storable(s.tables, s.tables.spiele[id])
    {
      VisibleKept(t.vereine, s.tables.vereine, LastWith(gs, id).value);
    }
  }

  /**
   * A cycle with a narrower horizon removes no orphans: rows of games not in
   * the batch are left exactly as they were.
   */
  lemma NarrowCycle(t: Tables, gs: seq<GameRecord>, zeitraum: string, s: State)
    requires zeitraum != ALL && SaveGames(t, gs, zeitraum) == Ok(s)
    ensures OthersUntouched(t.spiele, s.tables.spiele, gs)
    ensures HideLinksKept(t.vereine, s.tables.vereine)
  {
    RunInvariant(State(t, NoneSaved), gs);
  }

  /** The returned counters count the clubs and qualifications created. */
  lemma CountersCountCreations(t: Tables, gs: seq<GameRecord>, zeitraum: string, s: State)
    requires SaveGames(t, gs, zeitraum) == Ok(s)
    ensures s.counters.savedVereine == |s.tables.vereine.Keys| - |t.vereine.Keys|
    ensures s.counters.savedSrQualifikationen == |s.tables.quals.Keys| - |t.quals.Keys|
  {
    RunInvariant(State(t, NoneSaved), gs);
  }

  // ---- the tables, updated in place ----------------------------------------

  /** The `spiele`, `vereine` and `sr_qualifikationen` tables. */
  class SyncStore {
    var spiele: map<int, SpielRow>
    var vereine: map<int, VereinRow>
    var quals: map<int, QualRow>

    function Snapshot(): Tables
      reads this
    {
      Tables(spiele, vereine, quals)
    }

    constructor (t: Tables)
      ensures Snapshot() == t
    {
      spiele, vereine, quals := t.spiele, t.vereine, t.quals;
    }

    /** `Spiel.destroy` of the row with the given `spielplanId`. */
    method DestroySpiel(id: int)
      modifies this
      ensures Snapshot() == Remove(old(Snapshot()), id)
    {
      spiele := spiele - {id};
    }

    /**
     * `Verein.findOrCreate` then, for an existing row, `verein.update`; gives
     * the `hideLink` of the resulting instance.
     */
    method FindOrCreateVerein(v: VereinData) returns (hideLink: bool, created: bool)
      modifies this
      ensures Upsert(vereine, created) == UpsertVerein(old(vereine), v)
      ensures hideLink == vereine[v.vereinId].hideLink
      ensures spiele == old(spiele) && quals == old(quals)
    {
      if v.vereinId in vereine {
        hideLink, created := vereine[v.vereinId].hideLink, false;
        vereine := vereine[v.vereinId := UpdatedClub(vereine[v.vereinId], v)];
      } else {
        hideLink, created := false, true;
        vereine := vereine[v.vereinId := CreatedClub(v)];
      }
    }

    /** `SrQualifikation.findOrCreate` then, for an existing row, `update`. */
    method FindOrCreateQual(q: QualData) returns (created: bool)
      modifies this
      ensures Upsert(quals, created) == UpsertQual(old(quals), Some(q))
      ensures spiele == old(spiele) && vereine == old(vereine)
    {
      created := q.srQualifikationId !in quals;
      quals := quals[q.srQualifikationId := QualRow(q.bezeichnung, q.kurzBezeichnung)];
    }

    /**
     * `Spiel.findOrCreate` then, for an existing row, `spiel.update`; the
     * database refuses a row that cannot be stored.
     */
    method FindOrCreateSpiel(g: GameRecord) returns (stored: bool, created: bool)
      modifies this
      ensures created <==> g.sp.spielplanId !in old(spiele)
      ensures stored <==> Storable(old(Snapshot()), NewRow(old(spiele), g))
      ensures spiele == if stored then old(spiele)[g.sp.spielplanId := NewRow(old(spiele), g)] else old(spiele)
      ensures vereine == old(vereine) && quals == old(quals)
    {
      var id := g.sp.spielplanId;
      created := id !in spiele;
      var row := if created then CreatedRow(g, QualId(g)) else UpdatedRow(spiele[id], g, QualId(g));
      stored := Storable(Snapshot(), row);
      if stored {
        spiele := spiele[id := row];
      }
    }

    /** The body of the loop of `saveGamesToDatabase` for one record. */
    method SaveRecord(g: GameRecord, c: Counters) returns (r: Result<Counters, SyncError>)
      modifies this
      ensures match Step(State(old(Snapshot()), c), g)
        case Ok(s) => r == Ok(s.counters) && Snapshot() == s.tables
        case Err(f) => r == Err(f.error) && Snapshot() == f.state.tables
    {
      if !IsOpen(g) {
        DestroySpiel(g.sp.spielplanId);
        return Ok(c);
      }
      r := SaveOpenRecord(g, c);
    }

    /** Club upserts and the `hideLink` tests of an open record. */
    method SaveOpenRecord(g: GameRecord, c: Counters) returns (r: Result<Counters, SyncError>)
      modifies this
      ensures match Decide(UpsertClubs(State(old(Snapshot()), c), g), g)
        case Ok(s) => r == Ok(s.counters) && Snapshot() == s.tables
        case Err(f) => r == Err(f.error) && Snapshot() == f.state.tables
    {
      var id := g.sp.spielplanId;
      var heimHidden, gastHidden, counters := UpsertClubsOf(g, c);
      if heimHidden && gastHidden {
        DestroySpiel(id);
        return Ok(counters);
      }
      if g.sp.sr1Verein.None? {
        if g.sp.sr2Verein.None? {
          return Err(MissingClubs(id));
        }
        if gastHidden {
          DestroySpiel(id);
          return Ok(counters);
        }
      }
      if g.sp.sr2Verein.None? && heimHidden {
        DestroySpiel(id);
        return Ok(counters);
      }
      r := SaveKeptRecord(g, counters);
    }

    /** The club upsert of one slot, if it names a club, and the `hideLink` read from its row. */
    method UpsertSlotClub(o: Option<VereinData>, c: Counters) returns (hidden: bool, counters: Counters)
      modifies this
      ensures vereine == UpsertClub(old(vereine), o).table
      ensures counters == c.(savedVereine := c.savedVereine + Bump(UpsertClub(old(vereine), o).created))
      ensures hidden == HiddenClub(vereine, o)
      ensures spiele == old(spiele) && quals == old(quals)
    {
      counters := c;
      hidden := false;
      if o.Some? {
        var created;
        hidden, created := FindOrCreateVerein(o.value);
        counters := counters.(savedVereine := counters.savedVereine + Bump(created));
      }
    }

    /** The home and then the guest club upsert. */
    method UpsertClubsOf(g: GameRecord, c: Counters) returns (heimHidden: bool, gastHidden: bool, counters: Counters)
      modifies this
      ensures ClubsDone(State(Snapshot(), counters), heimHidden, gastHidden) ==
        UpsertClubs(State(old(Snapshot()), c), g)
    {
      ghost var heim := UpsertClub(vereine, g.sp.sr1Verein);
      var afterHeim;
      heimHidden, afterHeim := UpsertSlotClub(g.sp.sr1Verein, c);
      ghost var gast := UpsertClub(vereine, g.sp.sr2Verein);
      gastHidden, counters := UpsertSlotClub(g.sp.sr2Verein, afterHeim);
      UpsertClubsSteps(State(old(Snapshot()), c), g, heim, gast);
    }

    /** The qualification upsert of a kept record, if its league has one. */
    method UpsertQualOf(g: GameRecord, c: Counters) returns (counters: Counters)
      modifies this
      ensures State(Snapshot(), counters) == QualStep(State(old(Snapshot()), c), g)
    {
      counters := c;
      if QualOf(g).Some? {
        var created := FindOrCreateQual(QualOf(g).value);
        counters := counters.(savedSrQualifikationen := counters.savedSrQualifikationen + Bump(created));
      }
    }

    /** Qualification upsert and Spiel upsert of a record that is kept. */
    method SaveKeptRecord(g: GameRecord, c: Counters) returns (r: Result<Counters, SyncError>)
      modifies this
      ensures match SaveSpiel(State(old(Snapshot()), c), g)
        case Ok(s) => r == Ok(s.counters) && Snapshot() == s.tables
        case Err(f) => r == Err(f.error) && Snapshot() == f.state.tables
    {
      var counters := UpsertQualOf(g, c);
      var stored, created := FindOrCreateSpiel(g);
      if !stored {
        return Err(RejectedRow(g.sp.spielplanId));
      }
      return Ok(counters.(savedGames := counters.savedGames + Bump(created)));
    }

    /** `orphanRemoval(gamesData)`. */
    method RemoveOrphans(gs: seq<GameRecord>)
      modifies this
      ensures Snapshot() == OrphanRemoval(old(Snapshot()), gs)
    {
      var ids := Ids(gs);
      spiele := map id | id in spiele && id in ids :: spiele[id];
    }

    /**
     * `saveGamesToDatabase(gamesData, zeitraum)`: the records in order, the
     * first error rethrown with the tables as far as they got, and orphan
     * removal after the last record for the "all" horizon only.
     */
    method SaveGamesToDatabase(gs: seq<GameRecord>, zeitraum: string) returns (r: Result<Counters, SyncError>)
      modifies this
      ensures match SaveGames(old(Snapshot()), gs, zeitraum)
        case Ok(s) => r == Ok(s.counters) && Snapshot() == s.tables
        case Err(f) => r == Err(f.error) && Snapshot() == f.state.tables
    {
      ghost var s0 := State(Snapshot(), NoneSaved);
      var counters := NoneSaved;
      var i := 0;
      while i < |gs|
        invariant 0 <= i <= |gs|
        invariant Run(s0, gs[..i]) == Ok(State(Snapshot(), counters))
      {
        var step := SaveRecord(gs[i], counters);
        if step.Err? {
          FailureEndsLoop(Step, s0, gs, i);
          return Err(step.error);
        }
        assert gs[..i + 1][..i] == gs[..i];
        counters := step.value;
        i := i + 1;
      }
      assert gs[..i] == gs;
      if zeitraum == ALL {
        RemoveOrphans(gs);
      }
      return Ok(counters);
    }
  }
}

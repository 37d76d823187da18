/**
 * The records the open-games search of basketball-bund.net returns, and the
 * rows of the `spiele`, `vereine` and `sr_qualifikationen` tables the sync
 * engine of src/services/teamSLService.js writes (the Sequelize models Spiel, Verein and SrQualifikation).
 */
module SyncData {
  import opened Wrappers

  /**
   * A club as the upstream describes it (`sp.sr1Verein`, `sp.sr2Verein`, ...).
   * The district ids may be left out of the record as well as be null.
   */
  datatype VereinData = VereinData(
    vereinId: int, vereinsnummer: int, vereinsname: string,
    verbandId: int, kreisId: Sent<int>, bezirkId: Sent<int>)

  /** `sp.liga.srQualifikation`. */
  datatype QualData = QualData(srQualifikationId: int, bezeichnung: string, kurzBezeichnung: string)

  /** `sp.liga`. */
  datatype LigaData = LigaData(liganame: Option<string>, srQualifikation: Option<QualData>)

  /** `sp.spielfeld`. */
  datatype SpielfeldData = SpielfeldData(
    bezeichnung: Option<string>, strasse: Option<string>, plz: Option<string>, ort: Option<string>)

  /**
   * `gameData.sp`. The two team names stand for
   * `heimMannschaftLiga?.mannschaftName` and `gastMannschaftLiga?.mannschaftName`.
   */
  datatype SpData = SpData(
    spielplanId: int, spieldatum: int,
    sr1Verein: Option<VereinData>, sr2Verein: Option<VereinData>, sr3Verein: Option<VereinData>,
    liga: Option<LigaData>,
    heimMannschaftName: Option<string>, gastMannschaftName: Option<string>,
    spielfeld: Option<SpielfeldData>)

  /** A referee already assigned to a slot (`gameData.sr1`, ...). */
  datatype Referee = Referee(id: int)

  /**
   * One open-games record. `spieldatum` is the top-level field the update path
   * reads; an absent `srkOffenAngeboten` is `false`.
   */
  datatype GameRecord = GameRecord(
    sp: SpData, spieldatum: Option<int>,
    sr1OffenAngeboten: bool, sr2OffenAngeboten: bool, sr3OffenAngeboten: bool,
    sr1: Option<Referee>, sr2: Option<Referee>, sr3: Option<Referee>)

  /** A row of `vereine`; `hideLink` is set only by the club administration. */
  datatype VereinRow = VereinRow(
    vereinsnummer: int, vereinsname: string, verbandId: int,
    kreisId: Option<int>, bezirkId: Option<int>, hideLink: bool)

  /** A row of `sr_qualifikationen`. */
  datatype QualRow = QualRow(bezeichnung: string, kurzBezeichnung: string)

  /** The attributes the sync engine writes for one row of `spiele`. */
  datatype SpielRow = SpielRow(
    spieldatum: Option<int>,
    heimVereinId: Option<int>, gastVereinId: Option<int>,
    heimMannschaftName: string, gastMannschaftName: string,
    ligaName: string, spielfeldName: string, spielStrasse: string, spielPlz: string, spielOrt: string,
    srQualifikationId: Option<int>, srLizenz: string,
    sr1OffenAngeboten: bool, sr2OffenAngeboten: bool, sr3OffenAngeboten: bool,
    sr1VereinId: Option<int>, sr2VereinId: Option<int>, sr3VereinId: Option<int>,
    sr1VereinName: Option<string>, sr2VereinName: Option<string>, sr3VereinName: Option<string>,
    rawData: GameRecord)

  /** The three tables, keyed by their primary keys. */
  datatype Tables = Tables(
    spiele: map<int, SpielRow>, vereine: map<int, VereinRow>, quals: map<int, QualRow>)
}

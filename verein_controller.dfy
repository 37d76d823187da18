/**
 * src/controllers/vereinController.js: the club administration switches a
 * club's `hideLink` flag, and lists the clubs a page at a time with an
 * optional search by name or number.
 */
module VereinController {
  import opened Wrappers
  import opened Seqs
  import opened Strings
  import opened SyncData
  import opened Paging

  // ---- updateHideLink --------------------------------------------------------------

  /** The answer of `updateHideLink`: an error, or the club's id, name and new flag. */
  datatype HideReply =
    | Refused(status: int, error: string)
    | Updated(vereinId: int, vereinsname: string, hideLink: bool)

  const NotBoolean := "hideLink muss ein Boolean-Wert sein"
  const NoSuchClub := "Verein nicht gefunden"

  /**
   * `updateHideLink` on the club table. `hideLink` is `None` when the body's
   * value is not a boolean. The type check comes first, so a bad value is
   * refused even for an unknown club; only an existing club is written, and
   * only its `hideLink`.
   */
  function HideLink(vereine: map<int, VereinRow>, vereinId: int, hideLink: Option<bool>): (r: (map<int, VereinRow>, HideReply))
    ensures hideLink.None? ==> r == (vereine, Refused(400, NotBoolean))
    ensures hideLink.Some? && vereinId !in vereine ==> r == (vereine, Refused(404, NoSuchClub))
    ensures hideLink.Some? && vereinId in vereine ==>
      && r.0.Keys == vereine.Keys
      && (forall id :: id in vereine && id != vereinId ==> r.0[id] == vereine[id])
      && r.0[vereinId] == vereine[vereinId].(hideLink := hideLink.value)
      && r.1 == Updated(vereinId, vereine[vereinId].vereinsname, hideLink.value)
  {
    if hideLink.None? then (vereine, Refused(400, NotBoolean))
    else if vereinId !in vereine then (vereine, Refused(404, NoSuchClub))
    else (vereine[vereinId := vereine[vereinId].(hideLink := hideLink.value)],
          Updated(vereinId, vereine[vereinId].vereinsname, hideLink.value))
  }

  /**
   * Setting the flag is idempotent, and the sync engine's columns
   * (number, name, association ids) of every club survive it.
   */
  lemma HideLinkIdempotent(vereine: map<int, VereinRow>, vereinId: int, b: bool)
    ensures HideLink(HideLink(vereine, vereinId, Some(b)).0, vereinId, Some(b)).0 == HideLink(vereine, vereinId, Some(b)).0
    ensures forall id :: id in vereine ==>
      var after := HideLink(vereine, vereinId, Some(b)).0[id];
      && after.vereinsnummer == vereine[id].vereinsnummer && after.vereinsname == vereine[id].vereinsname
      && after.verbandId == vereine[id].verbandId && after.kreisId == vereine[id].kreisId
      && after.bezirkId == vereine[id].bezirkId
  {
    var once := HideLink(vereine, vereinId, Some(b)).0;
    if vereinId in vereine {
      assert once[vereinId].hideLink == b;
      assert once[vereinId := once[vereinId].(hideLink := b)] == once;
    }
  }

  class VereinStore {
    var vereine: map<int, VereinRow>

    constructor(vs: map<int, VereinRow>)
      ensures vereine == vs
    {
      vereine := vs;
    }

    /** `updateHideLink`: the check, the lookup, then `verein.update({ hideLink })`. */
    method UpdateHideLink(vereinId: int, hideLink: Option<bool>) returns (reply: HideReply)
      modifies this
      ensures (vereine, reply) == HideLink(old(vereine), vereinId, hideLink)
    {
      if hideLink.None? {
        return Refused(400, NotBoolean);
      }
      if vereinId !in vereine {
        return Refused(404, NoSuchClub);
      }
      var verein := vereine[vereinId];
      vereine := vereine[vereinId := verein.(hideLink := hideLink.value)];
      reply := Updated(vereinId, verein.vereinsname, hideLink.value);
    }
  }

  // ---- getAllVereine ---------------------------------------------------------------

  /** A club row with its primary key. */
  datatype Keyed = Keyed(id: int, row: VereinRow)

  /** `parseInt(search) || 0`: the number a search compares `vereinsnummer` with. */
  function SearchNumber(search: string): (r: int)
    ensures ParseInt(search).None? ==> r == 0
    ensures ParseInt(search).Some? ==> r == ParseInt(search).value
  {
    match ParseInt(search)
    case None => 0
    case Some(n) => n
  }

  /** The search condition: the term in the name ignoring case, or the number equal to the parsed term. */
  predicate Matches(search: Option<string>, r: VereinRow) {
    search.None? || search.value == ""
    || Contains(ToLower(r.vereinsname), ToLower(search.value))
    || r.vereinsnummer == SearchNumber(search.value)
  }

  /** The rows the search selects, in the order of the names. */
  function Selection(table: seq<Keyed>, search: Option<string>): seq<Keyed> {
    Filter((k: Keyed) => Matches(search, k.row), table)
  }

  datatype VereinPagination = VereinPagination(currentPage: int, totalPages: Num, totalItems: nat, itemsPerPage: int)

  datatype VereineAnswer = Failed | Listed(vereine: seq<Keyed>, pagination: VereinPagination)

  /**
   * `getAllVereine` as intended, with a case-insensitive LIKE for the name
   * search, for the numeric values of `page` and `limit` (defaults 1 and
   * 20), over the table ordered by name. A negative LIMIT or OFFSET
   * is an SQL error, answered 500. Unlike `getAllSpiele` the size is not
   * capped at 100.
   */
  function GetAllVereine(table: seq<Keyed>, page: int, limit: int, search: Option<string>): VereineAnswer {
    var offset := Offset(page, limit);
    if limit < 0 || offset < 0 then Failed
    else
      var selected := Selection(table, search);
      Listed(Window(selected, offset, limit), VereinPagination(page, CeilDiv(|selected|, limit), |selected|, limit))
  }

  /**
   * `getAllVereine` as written. The name test uses `Op.iLike`, which
   * Sequelize renders as PostgreSQL's ILIKE under every dialect, and MySQL,
   * the dialect of src/config/database.js, cannot parse it: a request with a
   * search ends in the 500 branch. `GetAllVereine` is the listing with the
   * intended case-insensitive LIKE.
   */
  function GetAllVereineAsWritten(table: seq<Keyed>, page: int, limit: int, search: Option<string>): (r: VereineAnswer)
    ensures search.Some? && search.value != "" ==> r.Failed?
    ensures search.None? || search.value == "" ==> r == GetAllVereine(table, page, limit, search)
  {
    if search.Some? && search.value != "" then Failed else GetAllVereine(table, page, limit, search)
  }

  /**
   * Every search fails as written, for any table, while the intended listing
   * answers each page from 1 on.
   */
  lemma SearchAsWrittenFails(table: seq<Keyed>, page: int, limit: int, search: string)
    requires search != "" && limit > 0 && page >= 1
    ensures GetAllVereineAsWritten(table, page, limit, Some(search)).Failed?
    ensures GetAllVereine(table, page, limit, Some(search)).Listed?
  {
    GetAllVereineSpec(table, page, limit, Some(search));
  }

  /**
   * A numeric search finds the clubs with that number as well as those
   * whose name contains the term; a search that does not start with a
   * number also finds the clubs numbered 0.
   */
  lemma SearchByNameOrNumber(table: seq<Keyed>, search: string, k: Keyed)
    requires search != "" && k in table
    ensures k in Selection(table, Some(search)) <==>
      Contains(ToLower(k.row.vereinsname), ToLower(search)) || k.row.vereinsnummer == SearchNumber(search)
    ensures ParseInt(search).None? && k.row.vereinsnummer == 0 ==> k in Selection(table, Some(search))
    ensures forall n: nat :: search == DecimalString(n) && k.row.vereinsnummer == n ==> k in Selection(table, Some(search))
  {
    FilterMember((x: Keyed) => Matches(Some(search), x.row), table, k);
    forall n: nat | search == DecimalString(n) && k.row.vereinsnummer == n
      ensures k in Selection(table, Some(search))
    {
      ParseIntDecimal(n);
    }
  }

  /** Without a search every club is listed. */
  lemma NoSearchListsAll(table: seq<Keyed>)
    ensures Selection(table, None) == table
  {
    FilterAll((k: Keyed) => Matches(None, k.row), table);
  }

  /** With a positive limit, selected club `k` is listed on page `k / limit + 1`, one of the `totalPages` pages. */
  lemma ClubOnItsPage(table: seq<Keyed>, limit: int, search: Option<string>, k: nat)
    requires limit > 0 && k < |Selection(table, search)|
    ensures var p := k / limit + 1;
      && 1 <= p <= CeilDiv(|Selection(table, search)|, limit).v
      && GetAllVereine(table, p, limit, search).Listed?
      && Selection(table, search)[k] in GetAllVereine(table, p, limit, search).vereine
  {
    var selected := Selection(table, search);
    RowOnItsPage(selected, limit, k);
    var p := k / limit + 1;
    var win := Window(selected, Offset(p, limit), limit);
    assert GetAllVereine(table, p, limit, search) == Listed(win, VereinPagination(p, CeilDiv(|selected|, limit), |selected|, limit));
    assert win[k % limit] == selected[k];
  }

  /**
   * The listing pages through the selected clubs: each page holds at most
   * `limit` of them, starting at `(page - 1) * limit`, and `totalItems`
   * counts them all; with a positive limit every page from 1 on is listed
   * (with an empty page past the end).
   */
  lemma GetAllVereineSpec(table: seq<Keyed>, page: int, limit: int, search: Option<string>)
    ensures GetAllVereine(table, page, limit, search).Failed? <==> limit < 0 || Offset(page, limit) < 0
    ensures limit > 0 && page >= 1 ==> GetAllVereine(table, page, limit, search).Listed?
    ensures GetAllVereine(table, page, limit, search).Listed? ==>
      var a := GetAllVereine(table, page, limit, search);
      var selected := Selection(table, search);
      && Offset(page, limit) >= 0
      && |a.vereine| <= limit
      && (forall i :: 0 <= i < |a.vereine| ==> Offset(page, limit) + i < |selected| && a.vereine[i] == selected[Offset(page, limit) + i])
      && a.pagination.totalItems == |selected|
      && a.pagination.totalPages == CeilDiv(|selected|, limit)
  {
    if limit > 0 && page >= 1 {
      ScaleLe(1, page, limit);
    }
  }
}

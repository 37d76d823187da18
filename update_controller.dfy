/**
 * `refgame` of _controller/update.controller.js: a club publishes what it
 * knows about one of its referee slots (offered in the bazaar, taken,
 * bonus, contact mail, name, text). Only a club listed for the slot may
 * write it, and one call writes at most one slot.
 */
module UpdateController {
  import opened Wrappers
  import opened LegacyData

  /**
   * The slot fields of the request body. The offer flag keeps apart a field
   * left out from one sent as null, because the handler tests it with
   * `!== undefined`; for the other fields both are `None`.
   */
  datatype SlotWrite = SlotWrite(
    basar: Sent<bool>,
    besetzt: Option<bool>,
    bonus: Option<int>,
    mail: Option<string>,
    name: Option<string>,
    info: Option<string>)

  datatype Body = Body(sr1: SlotWrite, sr2: SlotWrite)

  datatype Reply = Reply(status: int, message: string)

  /**
   * `game.update({...})` with all six fields of the slot: a field the body
   * leaves out is stored as null. The club is not among them.
   */
  function Write(s: Slot, w: SlotWrite): (r: Slot)
    ensures r.club == s.club
    ensures r.basar == w.basar.ToOption() && r.besetzt == w.besetzt && r.bonus == w.bonus
    ensures r.mail == w.mail && r.name == w.name && r.info == w.info
  {
    Slot(s.club, w.name, w.basar.ToOption(), w.besetzt, w.bonus, w.mail, w.info)
  }

  /**
   * The caller may write slot `s` with `w`: the body carries the slot's
   * offer flag, null included, and the caller's clubs hold its club.
   */
  predicate MayWrite(s: Slot, w: SlotWrite, club: seq<string>) {
    !w.basar.Unsent? && s.club.Some? && s.club.value in club
  }

  /**
   * What `refgame` does to the collection and what it answers (`None`: the
   * handler sends nothing), for `parseInt(req.params.game)` and the caller's
   * clubs. A NaN id (`None`) cannot be cast to the numeric `matchId` path,
   * so the query rejects before any test and the handler, which catches
   * nothing, ends without writing or answering.
   */
  function RefgameResult(ms: Matches, game: Option<int>, club: seq<string>, body: Body): (Matches, Option<Reply>) {
    if game.None? then (ms, None)
    else if FindMatch(ms, game.value).None? then (ms, Some(Reply(404, "Game doesn't exist!")))
    else
      var i := FindMatch(ms, game.value).value;
      var g := ms[i];
      if MayWrite(g.sr1, body.sr1, club) then (ms[i := g.(sr1 := Write(g.sr1, body.sr1))], Some(Reply(200, "ok")))
      else if MayWrite(g.sr2, body.sr2, club) then (ms[i := g.(sr2 := Write(g.sr2, body.sr2))], Some(Reply(200, "ok")))
      else (ms, Some(Reply(404, "not found")))
  }

  /**
   * A NaN id gets no answer; a numeric id naming no game is answered 404
   * "Game doesn't exist!". Neither writes anything, nor does any 404.
   */
  lemma RefgameUnknownGame(ms: Matches, game: Option<int>, club: seq<string>, body: Body)
    ensures RefgameResult(ms, game, club, body).1.None? <==> game.None?
    ensures RefgameResult(ms, game, club, body).1 == Some(Reply(404, "Game doesn't exist!")) <==>
      game.Some? && forall i :: 0 <= i < |ms| ==> ms[i].matchId != game.value
    ensures RefgameResult(ms, game, club, body).1.None? ==> RefgameResult(ms, game, club, body).0 == ms
    ensures RefgameResult(ms, game, club, body).1.Some? && RefgameResult(ms, game, club, body).1.value.status == 404 ==>
      RefgameResult(ms, game, club, body).0 == ms
  {
  }

  /**
   * For the game found at `i`: slot 1 is written iff the caller may write
   * it; slot 2 iff the caller may write it and not slot 1; otherwise
   * nothing is written and the answer is 404 "not found". An offer flag
   * sent as null counts as carried and is stored as null. No other game,
   * no club and no other field of the game changes, and at most one slot does.
   */
  lemma RefgameOwnership(ms: Matches, game: int, club: seq<string>, body: Body)
    requires FindMatch(ms, game).Some?
    ensures var i := FindMatch(ms, game).value;
            var (ms', reply) := RefgameResult(ms, Some(game), club, body);
            && |ms'| == |ms|
            && (forall j :: 0 <= j < |ms| && j != i ==> ms'[j] == ms[j])
            && HeadOf(ms'[i]) == HeadOf(ms[i])
            && ms'[i].sr1.club == ms[i].sr1.club && ms'[i].sr2.club == ms[i].sr2.club
            && (ms'[i].sr1 == ms[i].sr1 || ms'[i].sr2 == ms[i].sr2)
            && (MayWrite(ms[i].sr1, body.sr1, club) ==> ms'[i].sr1 == Write(ms[i].sr1, body.sr1) && reply == Some(Reply(200, "ok")))
            && (!MayWrite(ms[i].sr1, body.sr1, club) && MayWrite(ms[i].sr2, body.sr2, club) ==>
                  ms'[i].sr2 == Write(ms[i].sr2, body.sr2) && ms'[i].sr1 == ms[i].sr1 && reply == Some(Reply(200, "ok")))
            && (!MayWrite(ms[i].sr1, body.sr1, club) && !MayWrite(ms[i].sr2, body.sr2, club) ==>
                  ms' == ms && reply == Some(Reply(404, "not found")))
  {
  }

  /** A slot without a club, or whose club the caller does not hold, is never written. */
  lemma ForeignSlotKept(ms: Matches, game: int, club: seq<string>, body: Body)
    requires FindMatch(ms, game).Some?
    ensures var i := FindMatch(ms, game).value;
            var ms' := RefgameResult(ms, Some(game), club, body).0;
            && (ms[i].sr1.club.None? || ms[i].sr1.club.value !in club ==> ms'[i].sr1 == ms[i].sr1)
            && (ms[i].sr2.club.None? || ms[i].sr2.club.value !in club ==> ms'[i].sr2 == ms[i].sr2)
  {
  }

  /** The match collection `refgame` writes to. */
  class MatchStore {
    var matches: Matches

    constructor(ms: Matches)
      ensures matches == ms
    {
      matches := ms;
    }

    /** `refgame`: find the game, then try slot 1, then slot 2; `None` is no answer. */
    method Refgame(game: Option<int>, club: seq<string>, body: Body) returns (reply: Option<Reply>)
      modifies this
      ensures (matches, reply) == RefgameResult(old(matches), game, club, body)
    {
      if game.None? {
        return None;
      }
      var found := FindMatch(matches, game.value);
      if found.None? {
        return Some(Reply(404, "Game doesn't exist!"));
      }
      var i := found.value;
      var g := matches[i];
      if !body.sr1.basar.Unsent? && g.sr1.club.Some? && g.sr1.club.value in club {
        matches := matches[i := g.(sr1 := Write(g.sr1, body.sr1))];
        return Some(Reply(200, "ok"));
      }
      if !body.sr2.basar.Unsent? && g.sr2.club.Some? && g.sr2.club.value in club {
        matches := matches[i := g.(sr2 := Write(g.sr2, body.sr2))];
        return Some(Reply(200, "ok"));
      }
      return Some(Reply(404, "not found"));
    }
  }
}

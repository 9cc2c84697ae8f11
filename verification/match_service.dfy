/**
 * The match service: validation of match records and their effect on the
 * `matches` collection of the store.
 */
module MatchService {
  import opened Wrappers

  type MatchId = string

  /**
   * A match record. A field the caller left out is its falsy value:
   * "" for text, 0 for the date (a timestamp), 0.0 for an odds value.
   */
  datatype Match = Match(
    team1: string, team2: string, date: int, status: string,
    coteTeam1: real, coteTeam2: real, winner: string)

  /** A partial record for an update: `None` marks a field the caller did not supply. */
  datatype MatchPatch = MatchPatch(
    team1: Option<string>, team2: Option<string>, date: Option<int>, status: Option<string>,
    coteTeam1: Option<real>, coteTeam2: Option<real>, winner: Option<string>)

  datatype Field = Team1 | Team2 | Date | Status | CoteTeam1 | CoteTeam2

  datatype MatchError =
    | InvalidId              // "ID de match invalide"
    | MissingField(field: Field)  // "Le champ <field> est requis"
    | InvalidStatus          // "Statut invalide"
    | NotFound               // the store has no record with that id

  /** The fields a new match must supply, in the order they are checked. */
  const RequiredFields: seq<Field> := [Team1, Team2, Date, Status, CoteTeam1, CoteTeam2]

  /** The statuses a match may take. */
  const MatchStatuses: seq<string> := ["upcoming", "live", "finished"]

  /** JavaScript truthiness of one field of the record. */
  predicate Present(m: Match, f: Field) {
    match f
    case Team1 => m.team1 != ""
    case Team2 => m.team2 != ""
    case Date => m.date != 0
    case Status => m.status != ""
    case CoteTeam1 => m.coteTeam1 != 0.0
    case CoteTeam2 => m.coteTeam2 != 0.0
  }

  /** The early-exit scan over the required fields that `createMatch` runs first. */
  method FirstMissingField(m: Match) returns (missing: Option<Field>)
    ensures missing.None? <==> forall i | 0 <= i < |RequiredFields| :: Present(m, RequiredFields[i])
    ensures missing.Some? ==>
      exists i | 0 <= i < |RequiredFields| ::
        RequiredFields[i] == missing.value && !Present(m, missing.value) &&
        forall j | 0 <= j < i :: Present(m, RequiredFields[j])
  {
    var i := 0;
    while i < |RequiredFields|
      invariant 0 <= i <= |RequiredFields|
      invariant forall j | 0 <= j < i :: Present(m, RequiredFields[j])
    {
      if !Present(m, RequiredFields[i]) {
        return Some(RequiredFields[i]);
      }
      i := i + 1;
    }
    return None;
  }

  /** The store's update: every supplied field replaces the stored one. */
  function Patched(m: Match, p: MatchPatch): Match {
    Match(
      if p.team1.Some? then p.team1.value else m.team1,
      if p.team2.Some? then p.team2.value else m.team2,
      if p.date.Some? then p.date.value else m.date,
      if p.status.Some? then p.status.value else m.status,
      if p.coteTeam1.Some? then p.coteTeam1.value else m.coteTeam1,
      if p.coteTeam2.Some? then p.coteTeam2.value else m.coteTeam2,
      if p.winner.Some? then p.winner.value else m.winner)
  }

  /** Newest first: dates never increase along the list. */
  predicate NewestFirst(s: seq<(MatchId, Match)>) {
    forall i, j | 0 <= i < j < |s| :: s[i].1.date >= s[j].1.date
  }

  /** A record dated no later than the head of a newest-first list can lead it. */
  lemma PrependNewest(h: (MatchId, Match), t: seq<(MatchId, Match)>)
    requires NewestFirst(t)
    requires forall e | e in t :: e.1.date <= h.1.date
    ensures NewestFirst([h] + t)
  {
  }

  /** Inserts one record into a newest-first list, ahead of every record that is not newer. */
  function InsertByDate(s: seq<(MatchId, Match)>, x: (MatchId, Match)): seq<(MatchId, Match)> {
    if s == [] || x.1.date >= s[0].1.date then [x] + s
    else [s[0]] + InsertByDate(s[1..], x)
  }

  /** Insertion keeps a list newest first and adds exactly the one record. */
  lemma {:induction false} InsertByDateSorts(s: seq<(MatchId, Match)>, x: (MatchId, Match))
    requires NewestFirst(s)
    ensures NewestFirst(InsertByDate(s, x))
    ensures multiset(InsertByDate(s, x)) == multiset(s) + multiset{x}
  {
    if s == [] || x.1.date >= s[0].1.date {
      PrependNewest(x, s);
    } else {
      assert NewestFirst(s[1..]) by {
        forall i, j | 0 <= i < j < |s[1..]| ensures s[1..][i].1.date >= s[1..][j].1.date {
          assert s[1..][i] == s[i + 1] && s[1..][j] == s[j + 1];
        }
      }
      var rest := InsertByDate(s[1..], x);
      InsertByDateSorts(s[1..], x);
      assert s == [s[0]] + s[1..];
      assert forall e | e in rest :: e.1.date <= s[0].1.date by {
        forall e | e in rest ensures e.1.date <= s[0].1.date {
          assert e in multiset(rest);
          if e != x {
            assert e in multiset(s[1..]);
            var k :| 0 <= k < |s[1..]| && s[1..][k] == e;
            assert s[k + 1] == e;
          }
        }
      }
      PrependNewest(s[0], rest);
    }
  }

  /** The `matches` collection of the store. */
  class MatchStore {
    var matches: map<MatchId, Match>

    constructor ()
      ensures matches == map[]
    {
      matches := map[];
    }

    /** `getAllMatches`: every stored match with its id, sorted by date, newest first. */
    method GetAllMatches() returns (listed: seq<(MatchId, Match)>)
      ensures NewestFirst(listed)
      ensures |listed| == |matches|
      ensures forall p :: p in listed <==> p.0 in matches && matches[p.0] == p.1
    {
      var rest := matches.Keys;
      listed := [];
      while rest != {}
        invariant rest <= matches.Keys
        invariant NewestFirst(listed)
        invariant |listed| + |rest| == |matches|
        invariant forall p :: p in listed <==> p.0 in matches && p.0 !in rest && matches[p.0] == p.1
        decreases |rest|
      {
        var k :| k in rest;
        var before := listed;
        InsertByDateSorts(listed, (k, matches[k]));
        listed := InsertByDate(listed, (k, matches[k]));
        forall p ensures p in listed <==> p in before || p == (k, matches[k]) {
          assert p in listed <==> p in multiset(listed);
        }
        rest := rest - {k};
      }
      assert matches.Keys == matches.Keys - rest;
    }

    /** `getMatchById`: a missing id is refused before the store is asked. */
    method GetMatchById(id: MatchId) returns (r: Result<Match, MatchError>)
      ensures id == "" ==> r == Failure(InvalidId)
      ensures id != "" && id !in matches ==> r == Failure(NotFound)
      ensures r.Success? <==> id != "" && id in matches
      ensures r.Success? ==> r.value == matches[id]
    {
      if id == "" {
        return Failure(InvalidId);
      }
      if id !in matches {
        return Failure(NotFound);
      }
      return Success(matches[id]);
    }

    /**
     * `createMatch`: the first missing required field, then an unknown
     * status, refuse the record; otherwise the store files it under the
     * fresh id it generates (here the parameter `newId`).
     */
    method CreateMatch(data: Match, newId: MatchId) returns (r: Result<(MatchId, Match), MatchError>)
      requires newId != "" && newId !in matches
      modifies this
      ensures r.Failure? ==> matches == old(matches)
      ensures (exists i | 0 <= i < |RequiredFields| :: !Present(data, RequiredFields[i])) ==>
        r.Failure? && r.error.MissingField? && !Present(data, r.error.field)
      ensures r.Failure? && r.error.MissingField? ==>
        exists i | 0 <= i < |RequiredFields| ::
          RequiredFields[i] == r.error.field && !Present(data, r.error.field) &&
          forall j | 0 <= j < i :: Present(data, RequiredFields[j])
      ensures r == Failure(InvalidStatus) <==>
        (forall i | 0 <= i < |RequiredFields| :: Present(data, RequiredFields[i])) &&
        data.status !in MatchStatuses
      ensures r.Success? <==>
        (forall i | 0 <= i < |RequiredFields| :: Present(data, RequiredFields[i])) &&
        data.status in MatchStatuses
      ensures r.Success? ==> r.value == (newId, data) && matches == old(matches)[newId := data]
    {
      var missing := FirstMissingField(data);
      if missing.Some? {
        return Failure(MissingField(missing.value));
      }
      if data.status !in MatchStatuses {
        return Failure(InvalidStatus);
      }
      matches := matches[newId := data];
      return Success((newId, data));
    }

    /**
     * `updateMatch`: a missing id is refused; a status is checked only when
     * the patch supplies a non-empty one; an unknown id is the store's error.
     */
    method UpdateMatch(id: MatchId, patch: MatchPatch) returns (r: Result<Match, MatchError>)
      modifies this
      ensures r.Failure? ==> matches == old(matches)
      ensures id == "" ==> r == Failure(InvalidId)
      ensures (id != "" && patch.status.Some? && patch.status.value != "" &&
               patch.status.value !in MatchStatuses) ==> r == Failure(InvalidStatus)
      ensures r.Success? <==>
        id != "" && id in old(matches) &&
        (patch.status.Some? && patch.status.value != "" ==> patch.status.value in MatchStatuses)
      ensures r.Success? ==>
        r.value == Patched(old(matches)[id], patch) && matches == old(matches)[id := r.value]
    {
      if id == "" {
        return Failure(InvalidId);
      }
      if patch.status.Some? && patch.status.value != "" {
        if patch.status.value !in MatchStatuses {
          return Failure(InvalidStatus);
        }
      }
      if id !in matches {
        return Failure(NotFound);
      }
      var updated := Patched(matches[id], patch);
      matches := matches[id := updated];
      return Success(updated);
    }

    /** `deleteMatch`: a missing id is refused; an unknown id is the store's error. */
    method DeleteMatch(id: MatchId) returns (r: Result<(), MatchError>)
      modifies this
      ensures id == "" ==> r == Failure(InvalidId)
      ensures r.Success? <==> id != "" && id in old(matches)
      ensures r.Failure? ==> matches == old(matches)
      ensures r.Success? ==> matches == old(matches) - {id}
    {
      if id == "" {
        return Failure(InvalidId);
      }
      if id !in matches {
        return Failure(NotFound);
      }
      matches := matches - {id};
      return Success(());
    }
  }
}

/** The roster binder of src/player_matcher.py: two team rosters, a map from track id
    to the bound roster entry, and a reverse index from (team, jersey number) to track
    id. The reverse index is only ever added to, so it is not kept the exact inverse of
    the forward map: re-binding a track leaves its old key behind. */
module Roster {
  import opened Common
  import opened Models

  /** A roster entry as the server's roster API delivers it: name, number, position. */
  datatype RosterEntry = RosterEntry(name: string, number: int, position: Option<string>)

  /** A binding: the roster entry together with the team it was bound for. */
  datatype Binding = Binding(entry: RosterEntry, team: Team)

  /** `get_roster_summary`. */
  datatype Summary = Summary(home: nat, away: nat, matched: nat)

  /** The first entry of a roster with the given number (`next(...)` at
      src/player_matcher.py:72-75). */
  function FindByNumber(roster: seq<RosterEntry>, number: int): (r: Option<RosterEntry>)
    ensures r.None? <==> forall i :: 0 <= i < |roster| ==> roster[i].number != number
    ensures r.Some? ==>
      exists k :: && 0 <= k < |roster| && roster[k] == r.value && r.value.number == number
                  && forall j :: 0 <= j < k ==> roster[j].number != number
  {
    if roster == [] then None
    else if roster[0].number == number then Some(roster[0])
    else
      var r := FindByNumber(roster[1..], number);
      assert forall i :: 1 <= i < |roster| ==> roster[i] == roster[1..][i - 1];
      assert r.Some? ==>
        exists k :: && 0 <= k < |roster| && roster[k] == r.value && r.value.number == number
                    && forall j :: 0 <= j < k ==> roster[j].number != number
      by {
        if r.Some? {
          var k :| && 0 <= k < |roster[1..]| && roster[1..][k] == r.value && r.value.number == number
                   && forall j :: 0 <= j < k ==> roster[1..][j].number != number;
          assert roster[k + 1] == r.value;
        }
      }
      r
  }

  /** Some entry of the roster has this number. */
  ghost predicate HasNumber(roster: seq<RosterEntry>, number: int)
  {
    exists i :: 0 <= i < |roster| && roster[i].number == number
  }

  function RosterOf(home: seq<RosterEntry>, away: seq<RosterEntry>, team: Team): seq<RosterEntry>
  {
    if team == Home then home else away
  }

  /** Every bound entry belongs to its team's current roster and carries a non-zero
      number, and every (team, number) key names a non-zero number present in that
      team's roster and a track id that has some binding. A key need not agree with the
      binding of its track (see RebindKeepsOldKey). */
  ghost predicate Consistent(home: seq<RosterEntry>, away: seq<RosterEntry>,
                             idToPlayer: map<int, Binding>, playerToId: map<(Team, int), int>)
  {
    && (forall id :: id in idToPlayer ==>
          idToPlayer[id].entry in RosterOf(home, away, idToPlayer[id].team) && idToPlayer[id].entry.number != 0)
    && (forall key :: key in playerToId ==>
          && key.1 != 0 && HasNumber(RosterOf(home, away, key.0), key.1)
          && playerToId[key] in idToPlayer)
  }

  /** Binding a track to an entry of the team's roster with a non-zero number keeps the
      maps consistent. */
  lemma BindKeepsConsistent(home: seq<RosterEntry>, away: seq<RosterEntry>,
                          idToPlayer: map<int, Binding>, playerToId: map<(Team, int), int>,
                          trackId: int, team: Team, entry: RosterEntry)
    requires Consistent(home, away, idToPlayer, playerToId)
    requires entry in RosterOf(home, away, team) && entry.number != 0
    ensures Consistent(home, away, idToPlayer[trackId := Binding(entry, team)],
                       playerToId[(team, entry.number) := trackId])
  {
    var roster := RosterOf(home, away, team);
    var i :| 0 <= i < |roster| && roster[i] == entry;
    assert HasNumber(roster, entry.number);
  }

  /** Re-binding a track to an entry with another number leaves the key of the first
      number pointing at the track: the forward map holds only the new binding, while
      the reverse index holds both keys (src/player_matcher.py:80-85 never deletes a key). */
  lemma RebindKeepsOldKey(idToPlayer: map<int, Binding>, playerToId: map<(Team, int), int>,
                          trackId: int, team: Team, first: RosterEntry, second: RosterEntry)
    requires first.number != second.number
    ensures var ids := idToPlayer[trackId := Binding(first, team)][trackId := Binding(second, team)];
            var keys := playerToId[(team, first.number) := trackId][(team, second.number) := trackId];
            && ids[trackId] == Binding(second, team)
            && keys[(team, first.number)] == trackId && keys[(team, second.number)] == trackId
  {
  }

  /** Python truthiness of the optional jersey number: None and 0 are both falsy. */
  predicate Truthy(number: Option<int>)
    ensures number == None || number == Some(0) ==> !Truthy(number)
    ensures number.Some? && number.value != 0 ==> Truthy(number)
  {
    number.Some? && number.value != 0
  }

  class PlayerMatcher {
    var home: seq<RosterEntry>
    var away: seq<RosterEntry>
    var idToPlayer: map<int, Binding>
    var playerToId: map<(Team, int), int>

    /** `self.roster[team]`. */
    function TeamRoster(team: Team): seq<RosterEntry>
      reads this`home, this`away
    {
      RosterOf(home, away, team)
    }

    ghost predicate Valid()
      reads this
    {
      Consistent(home, away, idToPlayer, playerToId)
    }

    /** `__init__`: empty rosters, no binding. */
    constructor ()
      ensures Valid()
      ensures home == [] && away == [] && idToPlayer == map[] && playerToId == map[]
    {
      home, away := [], [];
      idToPlayer, playerToId := map[], map[];
    }

    /** `set_roster`: both rosters replaced and every binding dropped
        (src/player_matcher.py:48-55). */
    method SetRoster(homePlayers: seq<RosterEntry>, awayPlayers: seq<RosterEntry>)
      modifies this
      ensures Valid()
      ensures home == homePlayers && away == awayPlayers
      ensures idToPlayer == map[] && playerToId == map[]
    {
      home := homePlayers;
      away := awayPlayers;
      idToPlayer := map[];
      playerToId := map[];
    }

    /** `match_player` (src/player_matcher.py:66-88). Nothing changes when the team's
        roster is empty, when the number is missing or 0, or when no entry of the team has
        that number; otherwise the track is bound to the first such entry in both maps. */
    method MatchPlayer(trackId: int, team: Team, number: Option<int>)
      requires Valid()
      modifies this
      ensures Valid()
      ensures home == old(home) && away == old(away)
      ensures
        if TeamRoster(team) == [] || !Truthy(number) || FindByNumber(TeamRoster(team), number.value).None? then
          idToPlayer == old(idToPlayer) && playerToId == old(playerToId)
        else
          && idToPlayer == old(idToPlayer)[trackId := Binding(FindByNumber(TeamRoster(team), number.value).value, team)]
          && playerToId == old(playerToId)[(team, number.value) := trackId]
    {
      if TeamRoster(team) == [] {
        return;
      }
      if !Truthy(number) {
        return;
      }
      var player := FindByNumber(TeamRoster(team), number.value);
      if player.Some? {
        BindKeepsConsistent(home, away, idToPlayer, playerToId, trackId, team, player.value);
        idToPlayer := idToPlayer[trackId := Binding(player.value, team)];
        playerToId := playerToId[(team, number.value) := trackId];
      }
    }

    /** `get_player_info`. */
    function GetPlayerInfo(trackId: int): (info: Option<Binding>)
      reads this
      ensures info.Some? <==> trackId in idToPlayer
      ensures info.Some? ==> info.value == idToPlayer[trackId]
      ensures Valid() && info.Some? ==> info.value.entry in TeamRoster(info.value.team)
    {
      if trackId in idToPlayer then Some(idToPlayer[trackId]) else None
    }

    /** `get_track_id`. */
    function GetTrackId(team: Team, number: int): (id: Option<int>)
      reads this
      ensures id.Some? <==> (team, number) in playerToId
      ensures id.Some? ==> id.value == playerToId[(team, number)]
      ensures Valid() && id.Some? ==> id.value in idToPlayer && HasNumber(TeamRoster(team), number)
    {
      if (team, number) in playerToId then Some(playerToId[(team, number)]) else None
    }

    /** `enrich_players` (src/player_matcher.py:110-126): a new list of the same length
        and order; a bound player gets the bound entry's name, number and position, any
        other player is returned as it was. */
    method EnrichPlayers(players: seq<PlayerDetection>) returns (enriched: seq<PlayerDetection>)
      ensures |enriched| == |players|
      ensures forall i :: 0 <= i < |players| ==>
        if players[i].id in idToPlayer then
          var e := idToPlayer[players[i].id].entry;
          enriched[i] == players[i].(name := Some(e.name), number := Some(e.number), position := e.position)
        else
          enriched[i] == players[i]
    {
      enriched := [];
      var i := 0;
      while i < |players|
        invariant 0 <= i <= |players|
        invariant |enriched| == i
        invariant forall j :: 0 <= j < i ==>
          if players[j].id in idToPlayer then
            var e := idToPlayer[players[j].id].entry;
            enriched[j] == players[j].(name := Some(e.name), number := Some(e.number), position := e.position)
          else
            enriched[j] == players[j]
      {
        var player := players[i];
        var copy := player;
        var info := GetPlayerInfo(player.id);
        if info.Some? {
          copy := copy.(name := Some(info.value.entry.name), number := Some(info.value.entry.number),
                        position := info.value.entry.position);
        }
        enriched := enriched + [copy];
        i := i + 1;
      }
    }

    /** `get_roster_summary`: roster sizes and the number of bound track ids; with no
        bound track id there is no (team, number) key either. */
    function GetRosterSummary(): (s: Summary)
      reads this
      ensures s.home == |home| && s.away == |away| && s.matched == |idToPlayer.Keys|
      ensures Valid() && s.matched == 0 ==> playerToId == map[]
    {
      Summary(|home|, |away|, |idToPlayer|)
    }
  }

  /** The roster management scenario of tests/test_phase3.py:47-69. */
  method RosterScenario() returns (afterSet: Summary, afterBinds: Summary, first: Option<Binding>, second: Option<Binding>)
    ensures afterSet == Summary(3, 2, 0)
    ensures afterBinds == Summary(3, 2, 2)
    ensures first == Some(Binding(RosterEntry("Son", 7, Some("FW")), Home))
    ensures second == Some(Binding(RosterEntry("Messi", 10, Some("FW")), Away))
  {
    var matcher := new PlayerMatcher();
    var son := RosterEntry("Son", 7, Some("FW"));
    var kim := RosterEntry("Kim", 3, Some("CB"));
    var lee := RosterEntry("Lee", 18, Some("MF"));
    var messi := RosterEntry("Messi", 10, Some("FW"));
    var ronaldo := RosterEntry("Ronaldo", 7, Some("FW"));
    matcher.SetRoster([son, kim, lee], [messi, ronaldo]);
    afterSet := matcher.GetRosterSummary();

    assert FindByNumber([son, kim, lee], 7) == Some(son);
    matcher.MatchPlayer(1, Home, Some(7));
    assert FindByNumber([messi, ronaldo], 10) == Some(messi);
    matcher.MatchPlayer(2, Away, Some(10));
    assert matcher.idToPlayer.Keys == {1, 2};
    afterBinds := matcher.GetRosterSummary();
    first := matcher.GetPlayerInfo(1);
    second := matcher.GetPlayerInfo(2);
  }

  /** Re-binding track 1 from Son (7) to Kim (3): `get_player_info(1)` gives Kim, and
      `get_track_id('home', 7)` still answers 1. */
  method RebindScenario() returns (info: Option<Binding>, newKey: Option<int>, oldKey: Option<int>)
    ensures info == Some(Binding(RosterEntry("Kim", 3, Some("CB")), Home))
    ensures newKey == Some(1) && oldKey == Some(1)
  {
    var matcher := new PlayerMatcher();
    var son := RosterEntry("Son", 7, Some("FW"));
    var kim := RosterEntry("Kim", 3, Some("CB"));
    matcher.SetRoster([son, kim], []);
    assert FindByNumber([son, kim], 7) == Some(son);
    matcher.MatchPlayer(1, Home, Some(7));
    assert FindByNumber([son, kim], 3) == Some(kim);
    matcher.MatchPlayer(1, Home, Some(3));
    info := matcher.GetPlayerInfo(1);
    newKey := matcher.GetTrackId(Home, 3);
    oldKey := matcher.GetTrackId(Home, 7);
  }

  /** Binding requests that are no-ops, and a roster replacement that drops bindings. */
  method NoOpScenario() returns (afterBind: Summary, afterNoOps: set<int>, afterReplace: Summary)
    ensures afterBind == Summary(1, 0, 1)
    ensures afterNoOps == {1}
    ensures afterReplace == Summary(1, 0, 0)
  {
    var matcher := new PlayerMatcher();
    var son := RosterEntry("Son", 7, Some("FW"));
    matcher.SetRoster([son], []);
    assert FindByNumber([son], 7) == Some(son);
    matcher.MatchPlayer(1, Home, Some(7));
    afterBind := matcher.GetRosterSummary();

    // a number missing from the roster, a missing number and jersey 0 change nothing
    assert FindByNumber([son], 99).None?;
    matcher.MatchPlayer(3, Home, Some(99));
    matcher.MatchPlayer(3, Home, None);
    matcher.MatchPlayer(3, Home, Some(0));
    // a team with an empty roster changes nothing
    matcher.MatchPlayer(4, Away, Some(10));
    afterNoOps := matcher.idToPlayer.Keys;

    // replacing the roster drops every binding
    matcher.SetRoster([son], []);
    afterReplace := matcher.GetRosterSummary();
  }
}

/** The client phase state machine of `src/client_state.rs`: the phase
    enum and its mapping from the client's phase string, the published
    snapshot `ClientStatus`, and the lazy enrichment performed by
    `ClientStatus::update`.

    The control API is not called: an `Api` value stands for the answers
    the client's REST endpoints give during one connection, and every
    operation reports the request paths it issued, in order. */
module ClientStates {
  import opened Wrappers
  import opened Text
  import opened JsonValues

  const GAMEFLOW_PHASE: string := "/lol-gameflow/v1/gameflow-phase"
  const REGION_LOCALE: string := "/riotclient/region-locale"
  const CURRENT_SUMMONER: string := "/lol-summoner/v1/current-summoner"
  const CHAMP_SELECT_SESSION: string := "/lol-champ-select/v1/session"
  const SUMMONER_NAMES: string := "/lol-summoner/v2/summoner-names?ids="

  /** The JSON body each answering path returns. A path outside the map is
      a request that fails to be sent or whose body does not decode as
      JSON; the source unwraps those results, so any such failure aborts. */
  type Api = map<string, Json>

  function Get(api: Api, path: string): Option<Json>
  {
    if path in api then Some(api[path]) else None
  }

  /** `client.get(path)...[key].as_str()` */
  function GetStr(api: Api, path: string, key: string): Option<string>
  {
    match Get(api, path)
    case None => None
    case Some(body) => AsStr(Index(body, key))
  }

  /** What one lookup produced (None where the source would panic) and the
      request paths it issued, in order. */
  datatype Fetch<T> = Fetch(result: Option<T>, requests: seq<string>)

  datatype BasicInfo = BasicInfo(server: string, username: string)

  datatype ClientState = Closed | Idle | ChampSelect | InGame

  /** `ClientState::from`: the phase string reported by the client. */
  function FromPhase(phase: string): (s: ClientState)
    ensures s != Closed
    ensures s == ChampSelect <==> phase == "ChampSelect"
    ensures s == InGame <==> phase == "InProgress"
    ensures s == Idle <==> phase != "ChampSelect" && phase != "InProgress"
  {
    match phase
    case "ChampSelect" => ChampSelect
    case "InProgress" => InGame
    case _ => Idle
  }

  /** `ClientState::default` */
  function DefaultState(): ClientState
  {
    Closed
  }

  /** The default state is reached by no phase string: it only describes a
      client that has not been observed yet or is gone. */
  lemma NoPhaseIsDefault(phase: string)
    ensures FromPhase(phase) != DefaultState() && DefaultState() == Closed
  {
  }

  /** The value of a `ClientStatus`: what is published to subscribers. */
  datatype Status = Status(state: ClientState, info: Option<BasicInfo>, additionalInfo: Option<seq<string>>)

  /** The presence invariant of the published snapshot: identity
      information exactly when the client is up, a roster exactly in
      champion select. */
  predicate Consistent(st: Status)
  {
    && (st.info.Some? <==> st.state != Closed)
    && (st.additionalInfo.Some? <==> st.state == ChampSelect)
  }

  /** The derived `ClientStatus::default`. */
  function DefaultStatus(): (st: Status)
    ensures st.state == DefaultState() && st.info.None? && st.additionalInfo.None?
    ensures Consistent(st)
  {
    Status(DefaultState(), None, None)
  }

  /** `ClientState::load_from`: the current phase, asked for directly. */
  function LoadState(api: Api): (f: Fetch<ClientState>)
    ensures f.requests == [GAMEFLOW_PHASE]
    ensures f.result.Some? <==> GAMEFLOW_PHASE in api && api[GAMEFLOW_PHASE].Str?
    ensures f.result.Some? ==> f.result.value == FromPhase(api[GAMEFLOW_PHASE].s) && f.result.value != Closed
  {
    match Get(api, GAMEFLOW_PHASE)
    case None => Fetch(None, [GAMEFLOW_PHASE])
    case Some(body) =>
      match AsStr(body)
      case None => Fetch(None, [GAMEFLOW_PHASE])
      case Some(phase) => Fetch(Some(FromPhase(phase)), [GAMEFLOW_PHASE])
  }

  /** `BasicInfo::load_from`: the region (lower-cased) and the display
      name, asked for in that order; a failed first lookup stops before
      the second is sent. */
  function LoadBasicInfo(api: Api): (f: Fetch<BasicInfo>)
    ensures f.requests == if GetStr(api, REGION_LOCALE, "region").Some? then [REGION_LOCALE, CURRENT_SUMMONER] else [REGION_LOCALE]
    ensures f.result.Some? <==>
      GetStr(api, REGION_LOCALE, "region").Some? && GetStr(api, CURRENT_SUMMONER, "displayName").Some?
    ensures f.result.Some? ==>
      && NoUpperAscii(f.result.value.server)
      && f.result.value.server == ToLowerAscii(GetStr(api, REGION_LOCALE, "region").value)
      && f.result.value.username == GetStr(api, CURRENT_SUMMONER, "displayName").value
  {
    match GetStr(api, REGION_LOCALE, "region")
    case None => Fetch(None, [REGION_LOCALE])
    case Some(region) =>
      match GetStr(api, CURRENT_SUMMONER, "displayName")
      case None => Fetch(None, [REGION_LOCALE, CURRENT_SUMMONER])
      case Some(name) => Fetch(Some(BasicInfo(ToLowerAscii(region), name)), [REGION_LOCALE, CURRENT_SUMMONER])
  }

  /** The `summonerId` of every team member, or None when one of them is
      not an unsigned 64-bit number (`as_u64().unwrap()` panics). */
  function SummonerIds(team: seq<Json>): (ids: Option<seq<nat>>)
    ensures ids.Some? <==> forall i :: 0 <= i < |team| ==> AsU64(Index(team[i], "summonerId")).Some?
    ensures ids.Some? ==>
      && |ids.value| == |team|
      && forall i :: 0 <= i < |team| ==> ids.value[i] == AsU64(Index(team[i], "summonerId")).value
  {
    if team == [] then Some([])
    else
      match AsU64(Index(team[0], "summonerId"))
      case None => None
      case Some(id) =>
        match SummonerIds(team[1..])
        case None => None
        case Some(rest) => Some([id] + rest)
  }

  /** The ids with the zero ids (empty or bot slots) removed, in order. */
  function Positive(ids: seq<nat>): (r: seq<nat>)
    ensures forall x :: x in r <==> x in ids && x > 0
    ensures |r| <= |ids|
  {
    if ids == [] then [] else (if ids[0] > 0 then [ids[0]] else []) + Positive(ids[1..])
  }

  /** Filtering works piecewise, so the kept ids stay in team order. */
  lemma {:induction false} PositiveAppend(a: seq<nat>, b: seq<nat>)
    ensures Positive(a + b) == Positive(a) + Positive(b)
    decreases |a|
  {
    if a == [] {
      assert a + b == b;
    } else {
      assert (a + b)[1..] == a[1..] + b;
      PositiveAppend(a[1..], b);
    }
  }

  /** A list without zero ids is left as it is. */
  lemma {:induction false} PositiveKeepsNonzero(ids: seq<nat>)
    requires forall i :: 0 <= i < |ids| ==> ids[i] > 0
    ensures Positive(ids) == ids
    decreases |ids|
  {
    if ids != [] {
      PositiveKeepsNonzero(ids[1..]);
    }
  }

  lemma PositiveExample()
    ensures Positive([0, 4001, 0, 4002]) == [4001, 4002]
  {
    PositiveAppend([0, 4001], [0, 4002]);
  }

  /** The `displayName` of every answer entry, or None when one is not a string. */
  function DisplayNames(entries: seq<Json>): (names: Option<seq<string>>)
    ensures names.Some? <==> forall i :: 0 <= i < |entries| ==> AsStr(Index(entries[i], "displayName")).Some?
    ensures names.Some? ==>
      && |names.value| == |entries|
      && forall i :: 0 <= i < |entries| ==> names.value[i] == AsStr(Index(entries[i], "displayName")).value
  {
    if entries == [] then Some([])
    else
      match AsStr(Index(entries[0], "displayName"))
      case None => None
      case Some(name) =>
        match DisplayNames(entries[1..])
        case None => None
        case Some(rest) => Some([name] + rest)
  }

  /** The batch name lookup path, with the ids in `Vec`'s `Debug` form. */
  function NamesPath(ids: seq<nat>): (path: string)
    ensures path == SUMMONER_NAMES + DebugList(ids)
    ensures path != REGION_LOCALE
  {
    var path := SUMMONER_NAMES + DebugList(ids);
    assert path[1] == 'l' != REGION_LOCALE[1];
    path
  }

  /** Different id lists ask for different paths. */
  lemma NamesPathInjective(a: seq<nat>, b: seq<nat>)
    requires NamesPath(a) == NamesPath(b)
    ensures a == b
  {
    assert DebugList(a) == NamesPath(a)[|SUMMONER_NAMES|..];
    assert DebugList(b) == NamesPath(b)[|SUMMONER_NAMES|..];
    DebugListInjective(a, b);
  }

  /** The ids the roster is built from: the team's summoner ids from the
      champion-select session, zeros removed, in team order. */
  function RosterIds(api: Api): (ids: Option<seq<nat>>)
    ensures ids.Some? <==>
      && CHAMP_SELECT_SESSION in api
      && AsArray(Index(api[CHAMP_SELECT_SESSION], "myTeam")).Some?
      && SummonerIds(AsArray(Index(api[CHAMP_SELECT_SESSION], "myTeam")).value).Some?
    ensures ids.Some? ==>
      ids.value == Positive(SummonerIds(AsArray(Index(api[CHAMP_SELECT_SESSION], "myTeam")).value).value)
    ensures ids.Some? ==> forall i :: 0 <= i < |ids.value| ==> ids.value[i] > 0
  {
    match Get(api, CHAMP_SELECT_SESSION)
    case None => None
    case Some(session) =>
      match AsArray(Index(session, "myTeam"))
      case None => None
      case Some(team) =>
        match SummonerIds(team)
        case None => None
        case Some(all) =>
          assert forall i :: 0 <= i < |Positive(all)| ==> Positive(all)[i] in Positive(all);
          Some(Positive(all))
  }

  /** The roster lookup of `update`: session first, then one batch name
      lookup for the surviving ids; the names come in answer order. */
  function LoadRoster(api: Api): (f: Fetch<seq<string>>)
    ensures 1 <= |f.requests| <= 2 && f.requests[0] == CHAMP_SELECT_SESSION
    ensures REGION_LOCALE !in f.requests
    ensures f.result.Some? ==>
      && RosterIds(api).Some?
      && var path := NamesPath(RosterIds(api).value);
      && f.requests == [CHAMP_SELECT_SESSION, path]
      && path in api && api[path].Array?
      && f.result == DisplayNames(api[path].items)
    ensures RosterIds(api).None? ==> f == Fetch(None, [CHAMP_SELECT_SESSION])
    ensures RosterIds(api).Some? ==> f.requests == [CHAMP_SELECT_SESSION, NamesPath(RosterIds(api).value)]
    ensures RosterIds(api).Some? ==>
      var path := NamesPath(RosterIds(api).value);
      f.result.Some? <==> path in api && api[path].Array? && DisplayNames(api[path].items).Some?
  {
    match RosterIds(api)
    case None => Fetch(None, [CHAMP_SELECT_SESSION])
    case Some(ids) =>
      var path := NamesPath(ids);
      match Get(api, path)
      case None => Fetch(None, [CHAMP_SELECT_SESSION, path])
      case Some(body) =>
        match AsArray(body)
        case None => Fetch(None, [CHAMP_SELECT_SESSION, path])
        case Some(entries) => Fetch(DisplayNames(entries), [CHAMP_SELECT_SESSION, path])
  }

  /** The result of `update`: the new snapshot and the requests issued, or,
      where the source would panic on a failed lookup, only the requests
      issued up to that point. */
  datatype Outcome = Updated(status: Status, requests: seq<string>) | Aborted(requests: seq<string>)

  /** The identity half of `update`: kept when the snapshot has it,
      loaded otherwise. */
  function Identity(st: Status, api: Api): (f: Fetch<BasicInfo>)
    ensures st.info.Some? ==> f == Fetch(st.info, [])
    ensures st.info.None? ==> f == LoadBasicInfo(api)
    ensures multiset(f.requests)[REGION_LOCALE] == if st.info.None? then 1 else 0
    ensures CHAMP_SELECT_SESSION !in f.requests
  {
    if st.info.Some? then Fetch(st.info, [])
    else
      var f := LoadBasicInfo(api);
      assert CURRENT_SUMMONER != REGION_LOCALE;
      f
  }

  /** The roster half of `update` in champion select: kept when the
      snapshot has it, loaded otherwise. */
  function Roster(st: Status, api: Api): (f: Fetch<seq<string>>)
    ensures st.additionalInfo.Some? ==> f == Fetch(st.additionalInfo, [])
    ensures st.additionalInfo.None? ==> f == LoadRoster(api)
    ensures REGION_LOCALE !in f.requests
    ensures CHAMP_SELECT_SESSION in f.requests <==> st.additionalInfo.None?
  {
    if st.additionalInfo.Some? then Fetch(st.additionalInfo, []) else LoadRoster(api)
  }

  /** `ClientStatus::update` as a function of the old snapshot. */
  function Transition(st: Status, api: Api, s: ClientState): (o: Outcome)
    // the new snapshot
    ensures o.Updated? ==> o.status.state == s && Consistent(o.status)
    ensures s == Closed ==> o == Updated(Status(Closed, None, None), [])
    ensures o.Updated? && s != Closed && st.info.Some? ==> o.status.info == st.info
    ensures o.Updated? && s == ChampSelect && st.additionalInfo.Some? ==> o.status.additionalInfo == st.additionalInfo
    // a missing identity or roster is the one the lookups answer
    ensures o.Updated? && s != Closed && st.info.None? ==> o.status.info == LoadBasicInfo(api).result
    ensures o.Updated? && s == ChampSelect && st.additionalInfo.None? ==> o.status.additionalInfo == LoadRoster(api).result
    // the lookups: identity at most once, the roster only on entering champion select
    ensures multiset(o.requests)[REGION_LOCALE] == if s != Closed && st.info.None? then 1 else 0
    ensures CHAMP_SELECT_SESSION in o.requests ==> s == ChampSelect && st.additionalInfo.None?
    ensures o.Updated? && s == ChampSelect && st.additionalInfo.None? ==> CHAMP_SELECT_SESSION in o.requests
    // failure only comes from a lookup that was needed
    ensures o.Aborted? ==> s != Closed && (st.info.None? || (s == ChampSelect && st.additionalInfo.None?))
    ensures o.Aborted? <==>
      (&& s != Closed
       && ((st.info.None? && LoadBasicInfo(api).result.None?) ||
           (s == ChampSelect && st.additionalInfo.None? && LoadRoster(api).result.None?)))
  {
    if s == Closed then Updated(Status(Closed, None, None), [])
    else
      var basic := Identity(st, api);
      if basic.result.None? then Aborted(basic.requests)
      else if s != ChampSelect then Updated(Status(s, basic.result, None), basic.requests)
      else
        var roster := Roster(st, api);
        var requests := basic.requests + roster.requests;
        if roster.result.None? then Aborted(requests)
        else Updated(Status(s, basic.result, roster.result), requests)
  }


  /** Updating again to the state just reached changes nothing and asks
      for nothing. */
  lemma TransitionIdempotent(st: Status, api: Api, s: ClientState)
    requires Transition(st, api, s).Updated?
    ensures var next := Transition(st, api, s).status;
      Transition(next, api, s) == Updated(next, [])
  {
  }

  /** `ClientStatus::load_from`: the default snapshot updated to the phase
      the client reports. */
  function LoadStatus(api: Api): (o: Outcome)
    ensures |o.requests| >= 1 && o.requests[0] == GAMEFLOW_PHASE
    ensures multiset(o.requests)[REGION_LOCALE] <= 1
    ensures o.Updated? ==> Consistent(o.status) && o.status.state != Closed && o.status.info.Some?
    ensures o.Updated? ==> LoadState(api).result == Some(o.status.state)
    // loading succeeds exactly when every lookup it needs answers, and
    // installs what they answer
    ensures o.Updated? <==>
      && LoadState(api).result.Some?
      && LoadBasicInfo(api).result.Some?
      && (LoadState(api).result.value == ChampSelect ==> LoadRoster(api).result.Some?)
    ensures o.Updated? ==>
      && o.status.info == LoadBasicInfo(api).result
      && (o.status.state == ChampSelect ==> o.status.additionalInfo == LoadRoster(api).result)
  {
    var phase := LoadState(api);
    match phase.result
    case None => Aborted(phase.requests)
    case Some(s) =>
      assert GAMEFLOW_PHASE != REGION_LOCALE;
      match Transition(DefaultStatus(), api, s)
      case Aborted(requests) => Aborted(phase.requests + requests)
      case Updated(st, requests) => Updated(st, phase.requests + requests)
  }

  /** The snapshot object the supervisor owns and updates in place. */
  class ClientStatus {
    var state: ClientState
    var info: Option<BasicInfo>
    var additionalInfo: Option<seq<string>>

    /** `status.clone()` */
    function Snapshot(): Status
      reads this
    {
      Status(state, info, additionalInfo)
    }

    /** `ClientStatus::default()` */
    constructor ()
      ensures Snapshot() == DefaultStatus()
    {
      state, info, additionalInfo := DefaultState(), None, None;
    }

    /** `ClientStatus::update`. A failed lookup leaves the object as it was. */
    method Update(api: Api, s: ClientState) returns (ok: bool, requests: seq<string>)
      modifies this
      ensures Transition(old(Snapshot()), api, s) == if ok then Updated(Snapshot(), requests) else Aborted(requests)
      ensures !ok ==> Snapshot() == old(Snapshot())
    {
      ghost var before := Snapshot();
      requests := [];
      var newInfo := info;
      if s == Closed {
        newInfo := None;
      } else if info.None? {
        var basic := LoadBasicInfo(api);
        assert basic == Identity(before, api);
        requests := basic.requests;
        if basic.result.None? {
          return false, requests;
        }
        newInfo := basic.result;
      }
      assert s != Closed ==> Fetch(newInfo, requests) == Identity(before, api);
      var newRoster := None;
      if s == ChampSelect {
        newRoster := additionalInfo;
        if additionalInfo.None? {
          var roster := LoadRoster(api);
          assert roster == Roster(before, api);
          requests := requests + roster.requests;
          if roster.result.None? {
            return false, requests;
          }
          newRoster := roster.result;
        }
        assert newRoster == Roster(before, api).result;
        assert requests == Identity(before, api).requests + Roster(before, api).requests;
      }
      state, info, additionalInfo := s, newInfo, newRoster;
      ok := true;
    }

    /** `ClientStatus::load_from` */
    static method LoadFrom(api: Api) returns (status: ClientStatus, ok: bool, requests: seq<string>)
      ensures fresh(status)
      ensures LoadStatus(api) == if ok then Updated(status.Snapshot(), requests) else Aborted(requests)
    {
      status := new ClientStatus();
      var phase := LoadState(api);
      requests := phase.requests;
      if phase.result.None? {
        return status, false, requests;
      }
      var more;
      ok, more := status.Update(api, phase.result.value);
      requests := requests + more;
    }
  }
}

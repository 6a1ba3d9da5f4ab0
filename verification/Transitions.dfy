/** Cockpit commands: what each does to a copy of the aggregate, and what every one of them keeps. */
module Transitions {
  import opened Wrappers
  import opened CockpitModel

  datatype Json = JNull | JBool(b: bool) | JNumber(n: real) | JString(s: string) | JList(items: seq<Json>) | JObject

  datatype Name =
    | SetTheme | SetSystemMode | SelectDestination | ConfirmRoute | AcknowledgeRisk | ResolveRisk
    | SetMediaState | SubmitTripSuggestion | SetCabinControl | ResetSession

  datatype Command = Command(name: Name, parameters: map<string, Json>, correlationId: string)

  datatype Rejection = InvalidParameters | InvalidTransition | RiskNotFound | SafetySuppressed | CommandForbidden

  datatype Outcome =
    | Rejected(why: Rejection)
    | Same
    | Changed(snapshot: Snapshot, reset: bool)

  /** Clock readings and a drawn id: whatever the suppliers answer during one command. */
  datatype Supply = Supply(first: Time, second: Time, id: string)

  const DESTINATION_MAX := 160
  const SUGGESTION_MAX := 200
  const EVENT_ID_MAX := 256
  const STATE_MAX := 16

  // ---- Parameters ----

  predicate IsSpace(c: char) {
    var n := c as int;
    9 <= n <= 13 || 28 <= n <= 32 || n in {0x85, 0xa0, 0x1680, 0x2028, 0x2029, 0x202f, 0x205f, 0x3000}
      || 0x2000 <= n <= 0x200a
  }

  function StripLeft(s: string): string {
    if s != "" && IsSpace(s[0]) then StripLeft(s[1..]) else s
  }

  function StripRight(s: string): string {
    if s != "" && IsSpace(s[|s| - 1]) then StripRight(s[..|s| - 1]) else s
  }

  function Strip(s: string): string { StripRight(StripLeft(s)) }

  function Text(p: map<string, Json>, key: string, max: nat): Option<string> {
    if p.Keys == {key} && p[key].JString? && Strip(p[key].s) != "" && |Strip(p[key].s)| <= max
    then Some(Strip(p[key].s))
    else None
  }

  function Member<T>(p: map<string, Json>, key: string, members: map<string, T>): Option<T> {
    if p.Keys == {key} && p[key].JString? && p[key].s in members then Some(members[p[key].s]) else None
  }

  const THEMES: map<string, Theme> := map["day" := Day, "night" := Night]
  const MODES: map<string, Mode> := map[
    "normal" := Normal, "warning" := Warning, "takeover" := Takeover,
    "stale" := StaleMode, "offline" := OfflineMode, "recovery" := Recovery]
  const MEDIA: map<string, Media> := map["playing" := Playing, "paused" := Paused]

  // ---- What a command asks for, before the risk-dependent state is brought in line ----

  datatype Edit =
    | Refuse(why: Rejection)
    | NoChange
    | Put(s: Snapshot, resolved: Option<Risk>)
    | Restart

  function FirstRisk(risks: seq<Risk>, id: string): Option<nat> {
    if risks == [] then None
    else if risks[0].eventId == id then Some(0)
    else match FirstRisk(risks[1..], id)
         case None => None
         case Some(i) => Some(i + 1)
  }

  lemma FirstRiskAt(risks: seq<Risk>, id: string)
    ensures match FirstRisk(risks, id)
      case Some(i) => i < |risks| && risks[i].eventId == id && forall j :: 0 <= j < i ==> risks[j].eventId != id
      case None => forall r :: r in risks ==> r.eventId != id
  {
    if risks != [] {
      FirstRiskAt(risks[1..], id);
    }
  }

  function NewRisk(s: Snapshot, u: Supply): Risk {
    Risk("simulated-takeover-" + u.id, s.sessionId, Active, Critical, SimulatedEvent, u.first, u.first)
  }

  function Begun(s: Snapshot, u: Supply): Snapshot {
    if HasUnresolvedCritical(s) then s
    else s.(risks := s.risks + [NewRisk(s, u)], visionHealth := Health(Fresh, u.first))
  }

  function SetModeEdit(s: Snapshot, m: Mode, u: Supply): Edit {
    if m != Takeover && HasUnresolvedCritical(s) then Refuse(InvalidTransition)
    else if m == s.mode then NoChange
    else Put(if m == Takeover then Begun(s.(mode := m), u) else s.(mode := m), None)
  }

  function Advance(s: Snapshot, id: string, to: Lifecycle, u: Supply): Edit {
    match FirstRisk(s.risks, id)
    case None => Refuse(RiskNotFound)
    case Some(i) =>
      FirstRiskAt(s.risks, id);
      if s.risks[i].lifecycle != (if to == Acknowledged then Active else Acknowledged) then Refuse(InvalidTransition)
      else
        var r := s.risks[i].(lifecycle := to, updatedAt := u.first);
        var s' := s.(risks := s.risks[i := r]);
        if to == Resolved then Put(s'.(mode := Recovery), Some(r)) else Put(s', None)
  }

  function Rerouted(s: Snapshot, n: Navigation): Snapshot {
    s.(navigation := n, navigationHealth := Health(NavigationFreshness(n), n.updatedAt))
  }

  function PreviewEdit(s: Snapshot, destination: string, u: Supply): Edit {
    var n := Navigation(LocalFallback, Degraded, Preview, Some(destination), 8400, 960, u.first);
    Put(Rerouted(s, n).(flow := NavigationHandoff), None)
  }

  function ConfirmEdit(s: Snapshot, u: Supply): Edit {
    if s.navigation.status != Preview then Refuse(InvalidTransition)
    else Put(Rerouted(s, s.navigation.(status := ActiveRoute, updatedAt := u.first)), None)
  }

  function MediaEdit(s: Snapshot, v: string): Edit {
    if v !in MEDIA then Refuse(InvalidParameters)
    else if HasUnresolvedCritical(s) then Refuse(SafetySuppressed)
    else if s.media == MEDIA[v] then NoChange
    else Put(s.(media := MEDIA[v]), None)
  }

  /** The newest suggestion first, eight at most. */
  function SuggestionEdit(s: Snapshot, text: string): Edit {
    var all := [text] + s.suggestions;
    Put(s.(flow := PassengerCollaboration, suggestions := all[..if |all| < 8 then |all| else 8]), None)
  }

  function EditOf(s: Snapshot, c: Command, u: Supply): Edit {
    var p := c.parameters;
    match c.name
    case SetTheme =>
      (match Member(p, "theme", THEMES)
       case None => Refuse(InvalidParameters)
       case Some(t) => if t == s.theme then NoChange else Put(s.(theme := t), None))
    case SetSystemMode =>
      (match Member(p, "mode", MODES)
       case None => Refuse(InvalidParameters)
       case Some(m) => SetModeEdit(s, m, u))
    case SelectDestination =>
      (match Text(p, "destinationName", DESTINATION_MAX)
       case None => Refuse(InvalidParameters)
       case Some(d) => PreviewEdit(s, d, u))
    case ConfirmRoute =>
      if p != map[] then Refuse(InvalidParameters) else ConfirmEdit(s, u)
    case AcknowledgeRisk =>
      (match Text(p, "eventId", EVENT_ID_MAX)
       case None => Refuse(InvalidParameters)
       case Some(id) => Advance(s, id, Acknowledged, u))
    case ResolveRisk =>
      (match Text(p, "eventId", EVENT_ID_MAX)
       case None => Refuse(InvalidParameters)
       case Some(id) => Advance(s, id, Resolved, u))
    case SetMediaState =>
      (match Text(p, "state", STATE_MAX)
       case None => Refuse(InvalidParameters)
       case Some(v) => MediaEdit(s, v))
    case SubmitTripSuggestion =>
      (match Text(p, "suggestion", SUGGESTION_MAX)
       case None => Refuse(InvalidParameters)
       case Some(t) => SuggestionEdit(s, t))
    case SetCabinControl =>
      if p.Keys != {"privacyEnabled"} || !p["privacyEnabled"].JBool? then Refuse(InvalidParameters)
      else if p["privacyEnabled"].b == s.privacy then NoChange
      else Put(s.(privacy := p["privacyEnabled"].b), None)
    case ResetSession =>
      if p != map[] then Refuse(InvalidParameters) else Restart
  }

  function Synchronize(s: Snapshot, resolved: Option<Risk>, u: Supply): Snapshot {
    if HasUnresolvedCritical(s) then s.(mode := Takeover, flow := RiskTakeover, media := Suppressed)
    else s.(
      media := if s.media == Suppressed then Paused else s.media,
      flow := if s.flow == RiskTakeover then NavigationHandoff else s.flow,
      visionHealth := if resolved.Some? && resolved.value.source == SimulatedEvent then Health(Offline, u.second)
                      else s.visionHealth)
  }

  function Transition(s: Snapshot, c: Command, u: Supply): Outcome {
    match EditOf(s, c, u)
    case Refuse(why) => Rejected(why)
    case NoChange => Same
    case Put(s', resolved) => Changed(Synchronize(s', resolved, u), false)
    case Restart => Changed(CreateDefault(s.revision, u.id, u.first), true)
  }

  // ---- What every command keeps ----

  lemma LastOnly(s: Snapshot)
    requires RisksInTurn(s)
    ensures HasUnresolvedCritical(s) <==> s.risks != [] && s.risks[|s.risks| - 1].Unresolved()
  {
    if s.risks != [] {
      assert s.risks[|s.risks| - 1] in s.risks;
    }
  }

  lemma TakeoverCoherent(s: Snapshot, u: Supply)
    requires Coherent(s) && !HasUnresolvedCritical(s)
    ensures Coherent(Synchronize(Begun(s.(mode := Takeover), u), None, u))
  {
    var s1 := Begun(s.(mode := Takeover), u);
    LastOnly(s);
    assert RisksInTurn(s1);
    LastOnly(s1);
    LastOnly(Synchronize(s1, None, u));
  }

  lemma AdvanceCoherent(s: Snapshot, id: string, to: Lifecycle, u: Supply)
    requires Coherent(s) && to in {Acknowledged, Resolved}
    ensures var e := Advance(s, id, to, u); e.Put? ==> Coherent(Synchronize(e.s, e.resolved, u))
  {
    var e := Advance(s, id, to, u);
    if e.Put? {
      FirstRiskAt(s.risks, id);
      LastOnly(s);
      var s' := Synchronize(e.s, e.resolved, u);
      assert RisksInTurn(e.s) && RisksInTurn(s');
      LastOnly(e.s);
      LastOnly(s');
    }
  }

  /** An edit that leaves the risks and vision health alone and does not itself enter a takeover. */
  ghost predicate Plain(s: Snapshot, s1: Snapshot) {
    && s1.risks == s.risks && s1.visionHealth == s.visionHealth && s1.connectivity == s.connectivity
    && NavigationHealthDerived(s1) && |s1.suggestions| <= 8
    && (HasUnresolvedCritical(s) || (s1.mode != Takeover && s1.media != Suppressed))
  }

  predicate ChangesRisks(c: Command) {
    c.name in {AcknowledgeRisk, ResolveRisk}
      || (c.name == SetSystemMode && Member(c.parameters, "mode", MODES) == Some(Takeover))
  }

  lemma OthersArePlain(s: Snapshot, c: Command, u: Supply)
    requires Coherent(s) && !ChangesRisks(c)
    ensures var e := EditOf(s, c, u); e.Put? ==> Plain(s, e.s) && e.resolved.None?
  {
    match c.name
    case SetTheme =>
    case SetSystemMode =>
    case SelectDestination =>
    case ConfirmRoute =>
    case SetMediaState =>
    case SubmitTripSuggestion =>
    case _ =>
  }

  lemma PlainCoherent(s: Snapshot, s1: Snapshot, u: Supply)
    requires Coherent(s) && Plain(s, s1)
    ensures Coherent(Synchronize(s1, None, u))
  {
    LastOnly(s);
    LastOnly(Synchronize(s1, None, u));
  }

  /** The three kinds of edit. */
  lemma EditKinds(s: Snapshot, c: Command, u: Supply)
    requires Coherent(s) && EditOf(s, c, u).Put?
    ensures var e := EditOf(s, c, u);
      match c.name
      case AcknowledgeRisk => e == Advance(s, Text(c.parameters, "eventId", EVENT_ID_MAX).value, Acknowledged, u)
      case ResolveRisk => e == Advance(s, Text(c.parameters, "eventId", EVENT_ID_MAX).value, Resolved, u)
      case _ =>
        if ChangesRisks(c) then !HasUnresolvedCritical(s) && e == Put(Begun(s.(mode := Takeover), u), None)
        else Plain(s, e.s) && e.resolved.None?
  {
    if !ChangesRisks(c) {
      OthersArePlain(s, c, u);
    }
  }

  /** Every command leaves a coherent aggregate coherent. */
  lemma TransitionCoherent(s: Snapshot, c: Command, u: Supply)
    requires Coherent(s)
    ensures Transition(s, c, u).Changed? ==> Coherent(Transition(s, c, u).snapshot)
  {
    var e := EditOf(s, c, u);
    if e.Restart? {
      DefaultCoherent(s.revision, u.id, u.first);
    } else if e.Put? {
      EditKinds(s, c, u);
      if c.name == AcknowledgeRisk {
        AdvanceCoherent(s, Text(c.parameters, "eventId", EVENT_ID_MAX).value, Acknowledged, u);
      } else if c.name == ResolveRisk {
        AdvanceCoherent(s, Text(c.parameters, "eventId", EVENT_ID_MAX).value, Resolved, u);
      } else if ChangesRisks(c) {
        TakeoverCoherent(s, u);
      } else {
        PlainCoherent(s, e.s, u);
      }
    }
  }

  /** What only the service changes. */
  ghost predicate SameFrame(s: Snapshot, s': Snapshot) {
    s'.sessionId == s.sessionId && s'.revision == s.revision && s'.timestamp == s.timestamp
      && s'.connectivity == s.connectivity
  }

  lemma EditFrame(s: Snapshot, c: Command, u: Supply)
    ensures EditOf(s, c, u).Put? ==> SameFrame(s, EditOf(s, c, u).s)
  {
    match c.name
    case SetTheme =>
    case SetSystemMode =>
    case SelectDestination =>
    case ConfirmRoute =>
    case AcknowledgeRisk =>
    case ResolveRisk =>
    case SetMediaState =>
    case SubmitTripSuggestion =>
    case SetCabinControl =>
    case ResetSession =>
  }

  /** A command leaves session, revision and connectivity to the service; a reset keeps the revision. */
  lemma TransitionFrame(s: Snapshot, c: Command, u: Supply)
    ensures var o := Transition(s, c, u);
      && (o.Changed? && !o.reset ==> SameFrame(s, o.snapshot))
      && (o.Changed? && o.reset ==> o.snapshot == CreateDefault(s.revision, u.id, u.first))
  {
    EditFrame(s, c, u);
  }

  /** The next stage of a risk, or the one it is in. */
  predicate NextStage(l: Lifecycle, l': Lifecycle) {
    match l
    case Candidate => l' == Candidate || l' == Active
    case Active => l' == Active || l' == Acknowledged
    case Acknowledged => l' == Acknowledged || l' == Resolved
    case Resolved => l' == Resolved
  }

  /** The same event, one stage further at most. */
  ghost predicate Later(r: Risk, r': Risk) {
    r'.eventId == r.eventId && r'.sessionId == r.sessionId && r'.occurredAt == r.occurredAt
    && NextStage(r.lifecycle, r'.lifecycle)
  }

  /** One risk at most moves on, or one new active risk is added. */
  ghost predicate RisksMoveOn(rs: seq<Risk>, rs': seq<Risk>) {
    && |rs| <= |rs'| <= |rs| + 1
    && (forall i :: 0 <= i < |rs| ==> Later(rs[i], rs'[i]))
    && (forall i, j :: 0 <= i < j < |rs| ==> rs'[i] == rs[i] || rs'[j] == rs[j])
    && (|rs'| > |rs| ==> rs'[..|rs|] == rs && rs'[|rs|].lifecycle == Active)
  }

  lemma AdvanceMovesOn(s: Snapshot, id: string, to: Lifecycle, u: Supply)
    requires to in {Acknowledged, Resolved}
    ensures var e := Advance(s, id, to, u); e.Put? ==> |e.s.risks| == |s.risks| && RisksMoveOn(s.risks, e.s.risks)
  {
    FirstRiskAt(s.risks, id);
  }

  /**
   Within a session no risk is dropped, reordered or moved back: each stays or
   takes the next stage, at most one moves, and a new one is added only when
   none is unresolved.
   */
  lemma LifecyclesOnlyAdvance(s: Snapshot, c: Command, u: Supply)
    requires Coherent(s) && Transition(s, c, u).Changed? && !Transition(s, c, u).reset
    ensures var s' := Transition(s, c, u).snapshot;
      RisksMoveOn(s.risks, s'.risks) && (|s'.risks| > |s.risks| ==> !HasUnresolvedCritical(s))
  {
    EditKinds(s, c, u);
    var e := EditOf(s, c, u);
    assert Transition(s, c, u).snapshot.risks == e.s.risks;
    if c.name == AcknowledgeRisk {
      AdvanceMovesOn(s, Text(c.parameters, "eventId", EVENT_ID_MAX).value, Acknowledged, u);
    } else if c.name == ResolveRisk {
      AdvanceMovesOn(s, Text(c.parameters, "eventId", EVENT_ID_MAX).value, Resolved, u);
    }
  }

  /**
   While a critical risk is unresolved, no command leaves takeover or restores media
   except resolving it or a reset.
   */
  lemma TakeoverHolds(s: Snapshot, c: Command, u: Supply)
    requires Coherent(s) && HasUnresolvedCritical(s) && Transition(s, c, u).Changed?
    requires c.name != ResolveRisk && c.name != ResetSession
    ensures var s' := Transition(s, c, u).snapshot;
      HasUnresolvedCritical(s') && s'.mode == Takeover && s'.media == Suppressed && s'.flow == RiskTakeover
  {
    hide Transition;
    TransitionCoherent(s, c, u);
    CriticalStays(s, c, u);
  }

  lemma CriticalStays(s: Snapshot, c: Command, u: Supply)
    requires Coherent(s) && HasUnresolvedCritical(s) && Transition(s, c, u).Changed?
    requires c.name != ResolveRisk && c.name != ResetSession
    ensures HasUnresolvedCritical(Transition(s, c, u).snapshot)
  {
    hide EditOf, Advance, Coherent, HasUnresolvedCritical;
    OnlyResetRestarts(s, c, u);
    var e := EditOf(s, c, u);
    EditKinds(s, c, u);
    if c.name == AcknowledgeRisk {
      AcknowledgeNamesRisk(s, c, u);
      AcknowledgeResolvesNone(s, Text(c.parameters, "eventId", EVENT_ID_MAX).value, u);
    }
    SameRisksSameCritical(e.s, Transition(s, c, u).snapshot);
    SameRisksSameCritical(s, e.s);
  }

  lemma OnlyResetRestarts(s: Snapshot, c: Command, u: Supply)
    requires c.name != ResetSession
    ensures !EditOf(s, c, u).Restart?
  {
  }

  lemma AcknowledgeNamesRisk(s: Snapshot, c: Command, u: Supply)
    requires c.name == AcknowledgeRisk && EditOf(s, c, u).Put?
    ensures Text(c.parameters, "eventId", EVENT_ID_MAX).Some?
  {
  }

  lemma SameRisksSameCritical(s: Snapshot, s': Snapshot)
    ensures s.risks == s'.risks ==> HasUnresolvedCritical(s) == HasUnresolvedCritical(s')
  {
  }

  lemma AcknowledgeResolvesNone(s: Snapshot, id: string, u: Supply)
    requires HasUnresolvedCritical(s) && Advance(s, id, Acknowledged, u).Put?
    ensures HasUnresolvedCritical(Advance(s, id, Acknowledged, u).s)
  {
    FirstRiskAt(s.risks, id);
    var s' := Advance(s, id, Acknowledged, u).s;
    var i :| 0 <= i < |s.risks| && s.risks[i].Unresolved();
    assert s'.risks[i] in s'.risks && s'.risks[i].Unresolved();
  }

  // ---- The command handler, working on a copy ----

  method FindRisk(risks: seq<Risk>, id: string) returns (found: Option<nat>)
    ensures found == FirstRisk(risks, id)
    ensures found.Some? ==> found.value < |risks| && risks[found.value].eventId == id
  {
    var i := 0;
    while i < |risks|
      invariant i <= |risks|
      invariant FirstRisk(risks, id) ==
        match FirstRisk(risks[i..], id) { case None => None case Some(j) => Some(i + j) }
    {
      if risks[i].eventId == id {
        return Some(i);
      }
      i := i + 1;
    }
    found := None;
  }

  method ActivateSimulatedTakeover(s: Snapshot, u: Supply) returns (candidate: Snapshot)
    ensures candidate == Begun(s, u)
  {
    candidate := s;
    if HasUnresolvedCritical(candidate) {
      return;
    }
    candidate := candidate.(risks := candidate.risks + [NewRisk(candidate, u)]);
    candidate := candidate.(visionHealth := Health(Fresh, u.first));
  }

  method SynchronizeNavigationHealth(s: Snapshot) returns (candidate: Snapshot)
    ensures candidate == s.(navigationHealth := Health(NavigationFreshness(s.navigation), s.navigation.updatedAt))
    ensures NavigationHealthDerived(candidate)
  {
    candidate := s.(navigationHealth := Health(NavigationFreshness(s.navigation), s.navigation.updatedAt));
  }

  method SynchronizeRiskDependentState(s: Snapshot, resolved: Option<Risk>, u: Supply) returns (candidate: Snapshot)
    ensures candidate == Synchronize(s, resolved, u)
  {
    candidate := s;
    if HasUnresolvedCritical(candidate) {
      candidate := candidate.(mode := Takeover);
      candidate := candidate.(flow := RiskTakeover);
      candidate := candidate.(media := Suppressed);
      return;
    }
    if candidate.media == Suppressed {
      candidate := candidate.(media := Paused);
    }
    if candidate.flow == RiskTakeover {
      candidate := candidate.(flow := NavigationHandoff);
    }
    if resolved.Some? && resolved.value.source == SimulatedEvent {
      candidate := candidate.(visionHealth := Health(Offline, u.second));
    }
  }

  /** The risk commands; `to` is the stage asked for. */
  method AdvanceRisk(s: Snapshot, id: string, to: Lifecycle, u: Supply) returns (e: Edit)
    requires to in {Acknowledged, Resolved}
    ensures e == Advance(s, id, to, u)
  {
    var candidate, resolved := s, None;
    var found := FindRisk(candidate.risks, id);
    if found.None? {
      return Refuse(RiskNotFound);
    }
    var risk := candidate.risks[found.value];
    if to == Acknowledged {
      if risk.lifecycle != Active {
        return Refuse(InvalidTransition);
      }
      risk := risk.(lifecycle := Acknowledged, updatedAt := u.first);
    } else {
      if risk.lifecycle != Acknowledged {
        return Refuse(InvalidTransition);
      }
      risk := risk.(lifecycle := Resolved, updatedAt := u.first);
      candidate := candidate.(mode := Recovery);
      resolved := Some(risk);
    }
    candidate := candidate.(risks := candidate.risks[found.value := risk]);
    e := Put(candidate, resolved);
  }

  method PreviewRoute(s: Snapshot, destination: string, u: Supply) returns (e: Edit)
    ensures e == PreviewEdit(s, destination, u)
  {
    var candidate := s.(flow := NavigationHandoff);
    candidate := candidate.(
      navigation := Navigation(LocalFallback, Degraded, Preview, Some(destination), 8400, 960, u.first));
    candidate := SynchronizeNavigationHealth(candidate);
    e := Put(candidate, None);
  }

  method ConfirmPreview(s: Snapshot, u: Supply) returns (e: Edit)
    ensures e == ConfirmEdit(s, u)
  {
    if s.navigation.status != Preview {
      return Refuse(InvalidTransition);
    }
    var candidate := s.(navigation := s.navigation.(status := ActiveRoute));
    candidate := candidate.(navigation := candidate.navigation.(updatedAt := u.first));
    candidate := SynchronizeNavigationHealth(candidate);
    e := Put(candidate, None);
  }

  /** The commands about the look and the mode of the cockpit. */
  method ApplySetting(candidate: Snapshot, c: Command, u: Supply) returns (e: Edit)
    requires c.name in {SetTheme, SetSystemMode}
    ensures e == EditOf(candidate, c, u)
  {
    if c.name == SetTheme {
      var v := Member(c.parameters, "theme", THEMES);
      if v.None? { return Refuse(InvalidParameters); }
      if v.value == candidate.theme { return NoChange; }
      return Put(candidate.(theme := v.value), None);
    }
    var v := Member(c.parameters, "mode", MODES);
    if v.None? { return Refuse(InvalidParameters); }
    if v.value != Takeover && HasUnresolvedCritical(candidate) { return Refuse(InvalidTransition); }
    if v.value == candidate.mode { return NoChange; }
    var s := candidate.(mode := v.value);
    if v.value == Takeover {
      s := ActivateSimulatedTakeover(s, u);
    }
    e := Put(s, None);
  }

  /** The commands about the passengers. */
  method ApplyPassenger(candidate: Snapshot, c: Command, u: Supply) returns (e: Edit)
    requires c.name in {SetMediaState, SubmitTripSuggestion, SetCabinControl}
    ensures e == EditOf(candidate, c, u)
  {
    var p := c.parameters;
    if c.name == SetMediaState {
      var v := Text(p, "state", STATE_MAX);
      if v.None? || v.value !in MEDIA { return Refuse(InvalidParameters); }
      if HasUnresolvedCritical(candidate) { return Refuse(SafetySuppressed); }
      if candidate.media == MEDIA[v.value] { return NoChange; }
      return Put(candidate.(media := MEDIA[v.value]), None);
    }
    if c.name == SubmitTripSuggestion {
      var t := Text(p, "suggestion", SUGGESTION_MAX);
      if t.None? { return Refuse(InvalidParameters); }
      var s := candidate.(flow := PassengerCollaboration);
      var all := [t.value] + s.suggestions;
      return Put(s.(suggestions := all[..if |all| < 8 then |all| else 8]), None);
    }
    if p.Keys != {"privacyEnabled"} || !p["privacyEnabled"].JBool? { return Refuse(InvalidParameters); }
    if candidate.privacy == p["privacyEnabled"].b { return NoChange; }
    e := Put(candidate.(privacy := p["privacyEnabled"].b), None);
  }

  /** The commands about the route and the risks. */
  method ApplyRouteOrRisk(candidate: Snapshot, c: Command, u: Supply) returns (e: Edit)
    requires c.name in {SelectDestination, ConfirmRoute, AcknowledgeRisk, ResolveRisk}
    ensures e == EditOf(candidate, c, u)
  {
    var p := c.parameters;
    if c.name == SelectDestination {
      var d := Text(p, "destinationName", DESTINATION_MAX);
      if d.None? { return Refuse(InvalidParameters); }
      e := PreviewRoute(candidate, d.value, u);
      return;
    }
    if c.name == ConfirmRoute {
      if p != map[] { return Refuse(InvalidParameters); }
      e := ConfirmPreview(candidate, u);
      return;
    }
    var id := Text(p, "eventId", EVENT_ID_MAX);
    if id.None? { return Refuse(InvalidParameters); }
    e := AdvanceRisk(candidate, id.value, if c.name == AcknowledgeRisk then Acknowledged else Resolved, u);
  }

  method Apply(current: Snapshot, c: Command, u: Supply) returns (r: Outcome)
    ensures r == Transition(current, c, u)
  {
    var e: Edit;
    match c.name {
      case SetTheme => e := ApplySetting(current, c, u);
      case SetSystemMode => e := ApplySetting(current, c, u);
      case SelectDestination => e := ApplyRouteOrRisk(current, c, u);
      case ConfirmRoute => e := ApplyRouteOrRisk(current, c, u);
      case AcknowledgeRisk => e := ApplyRouteOrRisk(current, c, u);
      case ResolveRisk => e := ApplyRouteOrRisk(current, c, u);
      case SetMediaState => e := ApplyPassenger(current, c, u);
      case SubmitTripSuggestion => e := ApplyPassenger(current, c, u);
      case SetCabinControl => e := ApplyPassenger(current, c, u);
      case ResetSession =>
        if c.parameters != map[] { return Rejected(InvalidParameters); }
        return Changed(CreateDefault(current.revision, u.id, u.first), true);
    }
    match e {
      case Refuse(why) => return Rejected(why);
      case NoChange => return Same;
      case Put(s, resolved) =>
        var candidate := SynchronizeRiskDependentState(s, resolved, u);
        return Changed(candidate, false);
      case Restart => return Changed(CreateDefault(current.revision, u.id, u.first), true);
    }
  }
}

/** The cockpit aggregate, its default state and the derived navigation freshness. */
module CockpitModel {
  import opened Wrappers

  type Time = int

  datatype Endpoint = Cluster | Hud | Center | Passenger | Overview | Control
  datatype Theme = Day | Night
  datatype Mode = Normal | Warning | Takeover | StaleMode | OfflineMode | Recovery
  datatype Flow = NavigationHandoff | RiskTakeover | PassengerCollaboration
  datatype Freshness = Fresh | Stale | Offline
  datatype Lifecycle = Candidate | Active | Acknowledged | Resolved
  datatype Severity = Info | WarningRisk | Critical
  datatype Source = LiveCamera | VideoInference | SimulatedEvent
  datatype Media = Playing | Paused | Suppressed

  datatype Provider = Amap | LocalFallback | NoProvider
  datatype Service = LiveService | Degraded | NoService
  datatype RouteStatus = Idle | Planning | Preview | ActiveRoute | Arrived | NoRoute

  datatype Health = Health(status: Freshness, updatedAt: Time)
  datatype Connection = Connection(status: Freshness, lastSeenAt: Time)

  datatype Navigation = Navigation(
    provider: Provider, service: Service, status: RouteStatus, destination: Option<string>,
    remainingMeters: nat, etaSeconds: nat, updatedAt: Time)

  datatype Risk = Risk(
    eventId: string, sessionId: string, lifecycle: Lifecycle, severity: Severity, source: Source,
    occurredAt: Time, updatedAt: Time)
  {
    predicate Unresolved() { severity == Critical && (lifecycle == Active || lifecycle == Acknowledged) }
  }

  datatype Snapshot = Snapshot(
    sessionId: string, revision: nat, timestamp: Time, theme: Theme, mode: Mode, flow: Flow,
    vehicleHealth: Health, navigationHealth: Health, visionHealth: Health,
    navigation: Navigation, risks: seq<Risk>,
    media: Media, privacy: bool, suggestions: seq<string>,
    connectivity: map<Endpoint, Connection>)

  const ENDPOINTS: set<Endpoint> := set e: Endpoint | true

  /** One authoritative navigation health value for every provider, service and route status. */
  function NavigationFreshness(n: Navigation): Freshness {
    if n.provider == NoProvider || n.service == NoService || n.status in {Idle, NoRoute} then Offline
    else if n.provider == Amap && n.service == LiveService then Fresh
    else Stale
  }

  function CreateDefault(revision: nat, sessionId: string, now: Time): Snapshot {
    var navigation := Navigation(NoProvider, NoService, Idle, None, 0, 0, now);
    Snapshot(
      sessionId, revision, now, Night, Normal, NavigationHandoff,
      Health(Fresh, now), Health(NavigationFreshness(navigation), navigation.updatedAt), Health(Offline, now),
      navigation, [], Paused, true, [],
      map e | e in ENDPOINTS :: Connection(Offline, now))
  }

  predicate HasUnresolvedCritical(s: Snapshot) {
    exists r :: r in s.risks && r.Unresolved()
  }

  /** A takeover shows everywhere at once or nowhere. */
  ghost predicate OneTakeover(s: Snapshot) {
    && (s.mode == Takeover <==> HasUnresolvedCritical(s))
    && (s.flow == RiskTakeover <==> HasUnresolvedCritical(s))
    && (s.media == Suppressed <==> HasUnresolvedCritical(s))
    && (s.visionHealth.status == Fresh <==> HasUnresolvedCritical(s))
  }

  /** Every risk is a simulated critical one, and all but the last are resolved. */
  ghost predicate RisksInTurn(s: Snapshot) {
    && (forall i :: 0 <= i < |s.risks| ==>
         s.risks[i].severity == Critical && s.risks[i].source == SimulatedEvent && s.risks[i].lifecycle != Candidate)
    && forall i :: 0 <= i < |s.risks| - 1 ==> s.risks[i].lifecycle == Resolved
  }

  ghost predicate NavigationHealthDerived(s: Snapshot) {
    s.navigationHealth == Health(NavigationFreshness(s.navigation), s.navigation.updatedAt)
  }

  ghost predicate Coherent(s: Snapshot) {
    && OneTakeover(s) && RisksInTurn(s) && NavigationHealthDerived(s)
    && |s.suggestions| <= 8
    && s.connectivity.Keys == ENDPOINTS
  }

  lemma DefaultCoherent(revision: nat, sessionId: string, now: Time)
    ensures Coherent(CreateDefault(revision, sessionId, now))
  {
  }
}

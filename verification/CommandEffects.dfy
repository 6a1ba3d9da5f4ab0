/**
 What each cockpit command does, said without the handler: which parameters it
 takes, when it is refused, and the snapshot it leaves, down to the last field.
 Everything is for a coherent snapshot, as every one the service holds is.
 */
module CommandEffects {
  import opened Wrappers
  import opened CockpitModel
  import opened Transitions

  // ---- Parameters, as they are written ----

  const BLANKS: string :=
    "\t\n\U{000b}\U{000c}\r\U{001c}\U{001d}\U{001e}\U{001f} \U{0085}\U{00a0}\U{1680}"
    + "\U{2000}\U{2001}\U{2002}\U{2003}\U{2004}\U{2005}\U{2006}\U{2007}\U{2008}\U{2009}\U{200a}"
    + "\U{2028}\U{2029}\U{202f}\U{205f}\U{3000}"

  predicate Blank(c: char) { c in BLANKS }

  ghost predicate AllBlank(s: string) { forall c :: c in s ==> Blank(c) }

  /** The text stands in `raw` between blanks, and neither begins nor ends with one. */
  ghost predicate Trims(raw: string, t: string) {
    && t != "" && !Blank(t[0]) && !Blank(t[|t| - 1])
    && exists i :: StandsAt(raw, i, t)
  }

  ghost predicate StandsAt(raw: string, i: int, t: string) {
    0 <= i <= i + |t| <= |raw| && raw[i..i + |t|] == t && AllBlank(raw[..i]) && AllBlank(raw[i + |t|..])
  }

  /** The one parameter of this name is a text that is `t` between blanks. */
  ghost predicate Asks(p: map<string, Json>, key: string, max: nat, t: string) {
    p.Keys == {key} && p[key].JString? && Trims(p[key].s, t) && |t| <= max
  }

  lemma BlanksAre(c: char)
    ensures IsSpace(c) <==> Blank(c)
  {
    assert c in BLANKS <==> exists i :: 0 <= i < |BLANKS| && BLANKS[i] == c;
  }

  lemma {:induction false} LeftGoes(lead: string, rest: string)
    requires AllBlank(lead) && rest != "" && !Blank(rest[0])
    ensures StripLeft(lead + rest) == rest
  {
    hide Blank, IsSpace;
    if lead == "" {
      assert lead + rest == rest;
      BlanksAre(rest[0]);
    } else {
      BlanksAre(lead[0]);
      assert lead[0] in lead && (lead + rest)[1..] == lead[1..] + rest;
      LeftGoes(lead[1..], rest);
    }
  }

  lemma {:induction false} RightGoes(rest: string, trail: string)
    requires AllBlank(trail) && rest != "" && !Blank(rest[|rest| - 1])
    ensures StripRight(rest + trail) == rest
  {
    hide Blank, IsSpace;
    var s := rest + trail;
    if trail == "" {
      assert s == rest;
      BlanksAre(rest[|rest| - 1]);
    } else {
      BlanksAre(trail[|trail| - 1]);
      assert s[|s| - 1] == trail[|trail| - 1] && s[..|s| - 1] == rest + trail[..|trail| - 1];
      RightGoes(rest, trail[..|trail| - 1]);
    }
  }

  lemma {:induction false} LeftFound(s: string) returns (i: nat)
    ensures i <= |s| && StripLeft(s) == s[i..] && AllBlank(s[..i]) && (i < |s| ==> !Blank(s[i]))
  {
    hide Blank, IsSpace;
    i := 0;
    if s != "" {
      BlanksAre(s[0]);
      if IsSpace(s[0]) {
        var j := LeftFound(s[1..]);
        i := j + 1;
        assert s[..i] == [s[0]] + s[1..][..j] && s[1..][j..] == s[i..];
      }
    }
  }

  lemma {:induction false} RightFound(s: string) returns (i: nat)
    ensures i <= |s| && StripRight(s) == s[..i] && AllBlank(s[i..]) && (i > 0 ==> !Blank(s[i - 1]))
  {
    hide Blank, IsSpace;
    i := |s|;
    if s != "" {
      BlanksAre(s[|s| - 1]);
      if IsSpace(s[|s| - 1]) {
        i := RightFound(s[..|s| - 1]);
        assert s[i..] == s[..|s| - 1][i..] + [s[|s| - 1]] && s[..|s| - 1][..i] == s[..i];
      } else {
        assert s[..|s|] == s;
      }
    } else {
      assert s[..0] == s;
    }
  }

  lemma TrimsStrip(raw: string, t: string)
    requires Trims(raw, t)
    ensures Strip(raw) == t
  {
    hide Blank, IsSpace;
    var i :| StandsAt(raw, i, t);
    var lead, trail := raw[..i], raw[i + |t|..];
    assert raw == lead + (t + trail) && (t + trail)[0] == t[0];
    LeftGoes(lead, t + trail);
    RightGoes(t, trail);
  }

  lemma StripIsTrimmed(raw: string)
    requires Strip(raw) != ""
    ensures Trims(raw, Strip(raw))
  {
    hide Blank, IsSpace, StripLeft, StripRight;
    var i := LeftFound(raw);
    var j := RightFound(raw[i..]);
    var t := Strip(raw);
    assert t == raw[i..][..j] == raw[i..i + j] && raw[i + |t|..] == raw[i..][j..];
    assert t[0] == raw[i] && t[|t| - 1] == raw[i..][j - 1];
    assert StandsAt(raw, i, t);
  }

  /** Stripping leaves exactly the text between the blanks, if there is any. */
  lemma StripTrims(raw: string, t: string)
    ensures Trims(raw, t) <==> t != "" && Strip(raw) == t
  {
    hide Trims, Strip;
    if Trims(raw, t) {
      TrimsStrip(raw, t);
      TrimmedIsText(raw, t);
    }
    if Strip(raw) != "" {
      StripIsTrimmed(raw);
    }
  }

  lemma TrimmedIsText(raw: string, t: string)
    requires Trims(raw, t)
    ensures t != ""
  {
  }

  lemma TextIs(p: map<string, Json>, key: string, max: nat, t: string)
    ensures Text(p, key, max) == Some(t) <==> Asks(p, key, max, t)
  {
    hide Strip, Trims;
    if p.Keys == {key} && p[key].JString? {
      StripTrims(p[key].s, t);
      StripTrims(p[key].s, Strip(p[key].s));
    }
  }

  lemma NoText(p: map<string, Json>, key: string, max: nat)
    requires forall t :: !Asks(p, key, max, t)
    ensures Text(p, key, max).None?
  {
    hide Text, Asks;
    if Text(p, key, max).Some? {
      TextIs(p, key, max, Text(p, key, max).value);
    }
  }

  // ---- Settings ----

  function ThemeWord(t: Theme): string { match t case Day => "day" case Night => "night" }

  function ModeWord(m: Mode): string {
    match m
    case Normal => "normal" case Warning => "warning" case Takeover => "takeover"
    case StaleMode => "stale" case OfflineMode => "offline" case Recovery => "recovery"
  }

  lemma ThemeEffect(s: Snapshot, c: Command, u: Supply)
    requires Coherent(s) && c.name == SetTheme
    ensures forall t :: c.parameters == map["theme" := JString(ThemeWord(t))] ==>
      Transition(s, c, u) == if s.theme == t then Same else Changed(s.(theme := t), false)
    ensures (forall t :: c.parameters != map["theme" := JString(ThemeWord(t))]) ==>
      Transition(s, c, u) == Rejected(InvalidParameters)
  {
    var p := c.parameters;
    if Member(p, "theme", THEMES).Some? {
      assert p == map["theme" := JString(ThemeWord(Day))] || p == map["theme" := JString(ThemeWord(Night))];
    }
    forall t | p == map["theme" := JString(ThemeWord(t))] ensures Member(p, "theme", THEMES) == Some(t) {
    }
  }

  /** The event of a takeover that is played. */
  ghost predicate Simulated(r: Risk, s: Snapshot, u: Supply) {
    && r.eventId == "simulated-takeover-" + u.id && r.sessionId == s.sessionId && r.lifecycle == Active
    && r.severity == Critical && r.source == SimulatedEvent && r.occurredAt == u.first && r.updatedAt == u.first
  }

  /** What entering a takeover leaves: one more risk, and everything that shows it. */
  ghost predicate TakenOver(s: Snapshot, s': Snapshot, u: Supply) {
    && |s'.risks| == |s.risks| + 1 && Simulated(s'.risks[|s.risks|], s, u)
    && s' == s.(mode := Takeover, flow := RiskTakeover, media := Suppressed, visionHealth := Health(Fresh, u.first),
                risks := s.risks + [s'.risks[|s.risks|]])
  }

  /** Modes: a takeover is entered once, left by resolving its risk only, and any other mode is just set. */
  lemma ModeEffect(s: Snapshot, c: Command, u: Supply, m: Mode)
    requires Coherent(s) && c.name == SetSystemMode && c.parameters == map["mode" := JString(ModeWord(m))]
    ensures var o := Transition(s, c, u);
      if m == s.mode then o == Same
      else if s.mode == Takeover then o == Rejected(InvalidTransition)
      else if m == Takeover then o.Changed? && !o.reset && TakenOver(s, o.snapshot, u)
      else o == Changed(s.(mode := m), false)
  {
    assert Member(c.parameters, "mode", MODES) == Some(m);
    if m == Takeover && s.mode != Takeover {
      var s' := Transition(s, c, u).snapshot;
      assert NewRisk(s, u) in s'.risks;
    }
  }

  lemma NoModeEffect(s: Snapshot, c: Command, u: Supply)
    requires c.name == SetSystemMode && forall m :: c.parameters != map["mode" := JString(ModeWord(m))]
    ensures Transition(s, c, u) == Rejected(InvalidParameters)
  {
    if Member(c.parameters, "mode", MODES).Some? {
      MemberIsWord(c.parameters);
    }
  }

  lemma MemberIsWord(p: map<string, Json>)
    requires Member(p, "mode", MODES).Some?
    ensures exists m :: p == map["mode" := JString(ModeWord(m))]
  {
    assert p == map["mode" := JString(ModeWord(Member(p, "mode", MODES).value))];
  }

  // ---- The route ----

  /** How fresh the shown navigation is, said by cases. */
  ghost predicate ShowsNavigation(h: Health, n: Navigation) {
    && h.updatedAt == n.updatedAt
    && match h.status
       case Offline => n.provider == NoProvider || n.service == NoService || n.status == Idle || n.status == NoRoute
       case Fresh => n.provider == Amap && n.service == LiveService && n.status != Idle && n.status != NoRoute
       case Stale =>
         && n.provider != NoProvider && n.service != NoService && n.status != Idle && n.status != NoRoute
         && (n.provider == LocalFallback || n.service == Degraded)
  }

  /** In every coherent snapshot the navigation health is that of the navigation. */
  lemma HealthShows(s: Snapshot)
    requires Coherent(s)
    ensures ShowsNavigation(s.navigationHealth, s.navigation)
  {
  }

  lemma DestinationEffect(s: Snapshot, c: Command, u: Supply, d: string)
    requires Coherent(s) && c.name == SelectDestination && Asks(c.parameters, "destinationName", 160, d)
    ensures Transition(s, c, u) == Changed(
      s.(navigation := Navigation(LocalFallback, Degraded, Preview, Some(d), 8400, 960, u.first),
         navigationHealth := Health(Stale, u.first),
         flow := if s.mode == Takeover then RiskTakeover else NavigationHandoff), false)
  {
    hide Text, Asks;
    TextIs(c.parameters, "destinationName", 160, d);
    assert Text(c.parameters, "destinationName", DESTINATION_MAX) == Some(d);
  }

  lemma ConfirmEffect(s: Snapshot, c: Command, u: Supply)
    requires Coherent(s) && c.name == ConfirmRoute
    ensures var o := Transition(s, c, u);
      if c.parameters != map[] then o == Rejected(InvalidParameters)
      else if s.navigation.status != Preview then o == Rejected(InvalidTransition)
      else
        && o.Changed? && !o.reset && ShowsNavigation(o.snapshot.navigationHealth, o.snapshot.navigation)
        && o.snapshot == s.(navigation := s.navigation.(status := ActiveRoute, updatedAt := u.first),
                            navigationHealth := o.snapshot.navigationHealth)
  {
  }

  // ---- Risks ----

  /** The first risk with this identifier. */
  ghost predicate FirstWith(risks: seq<Risk>, id: string, i: nat) {
    i < |risks| && risks[i].eventId == id && forall j :: 0 <= j < i ==> risks[j].eventId != id
  }

  lemma FirstIs(risks: seq<Risk>, id: string, i: nat)
    requires FirstWith(risks, id, i)
    ensures FirstRisk(risks, id) == Some(i)
  {
    FirstRiskAt(risks, id);
  }

  lemma NoneIs(risks: seq<Risk>, id: string)
    requires forall r :: r in risks ==> r.eventId != id
    ensures FirstRisk(risks, id) == None
  {
    FirstRiskAt(risks, id);
  }

  lemma AcknowledgeEffect(s: Snapshot, c: Command, u: Supply, id: string, i: nat)
    requires Coherent(s) && c.name == AcknowledgeRisk && Asks(c.parameters, "eventId", 256, id)
    requires FirstWith(s.risks, id, i)
    ensures Transition(s, c, u) ==
      if s.risks[i].lifecycle != Active then Rejected(InvalidTransition)
      else Changed(s.(risks := s.risks[i := s.risks[i].(lifecycle := Acknowledged, updatedAt := u.first)]), false)
  {
    hide Text, Asks, FirstRisk;
    TextIs(c.parameters, "eventId", 256, id);
    assert Text(c.parameters, "eventId", EVENT_ID_MAX) == Some(id);
    FirstIs(s.risks, id, i);
    if s.risks[i].lifecycle == Active {
      LastOnly(s);
      var risks := s.risks[i := s.risks[i].(lifecycle := Acknowledged, updatedAt := u.first)];
      assert risks[i] in risks && s.risks[i] in s.risks;
    }
  }

  lemma ResolveEffect(s: Snapshot, c: Command, u: Supply, id: string, i: nat)
    requires Coherent(s) && c.name == ResolveRisk && Asks(c.parameters, "eventId", 256, id)
    requires FirstWith(s.risks, id, i)
    ensures Transition(s, c, u) ==
      if s.risks[i].lifecycle != Acknowledged then Rejected(InvalidTransition)
      else Changed(
        s.(risks := s.risks[i := s.risks[i].(lifecycle := Resolved, updatedAt := u.first)], mode := Recovery,
           flow := NavigationHandoff, media := Paused, visionHealth := Health(Offline, u.second)), false)
  {
    hide Text, Asks, FirstRisk;
    TextIs(c.parameters, "eventId", 256, id);
    assert Text(c.parameters, "eventId", EVENT_ID_MAX) == Some(id);
    FirstIs(s.risks, id, i);
    if s.risks[i].lifecycle == Acknowledged {
      assert s.risks[i] in s.risks && s.risks[i].Unresolved() && i == |s.risks| - 1;
      var risks := s.risks[i := s.risks[i].(lifecycle := Resolved, updatedAt := u.first)];
      assert forall r :: r in risks ==> !r.Unresolved();
    }
  }

  lemma NoRiskEffect(s: Snapshot, c: Command, u: Supply, id: string)
    requires c.name in {AcknowledgeRisk, ResolveRisk} && Asks(c.parameters, "eventId", 256, id)
    requires forall r :: r in s.risks ==> r.eventId != id
    ensures Transition(s, c, u) == Rejected(RiskNotFound)
  {
    hide Text, Asks, FirstRisk;
    TextIs(c.parameters, "eventId", 256, id);
    assert Text(c.parameters, "eventId", EVENT_ID_MAX) == Some(id);
    NoneIs(s.risks, id);
  }

  // ---- The passengers ----

  lemma MediaEffect(s: Snapshot, c: Command, u: Supply, m: Media)
    requires Coherent(s) && c.name == SetMediaState && m != Suppressed
    requires Asks(c.parameters, "state", 16, if m == Playing then "playing" else "paused")
    ensures Transition(s, c, u) ==
      if s.mode == Takeover then Rejected(SafetySuppressed)
      else if s.media == m then Same
      else Changed(s.(media := m), false)
  {
    hide Text, Asks;
    var v := if m == Playing then "playing" else "paused";
    TextIs(c.parameters, "state", 16, v);
    assert Text(c.parameters, "state", STATE_MAX) == Some(v) && MEDIA[v] == m;
  }

  lemma NoMediaEffect(s: Snapshot, c: Command, u: Supply)
    requires c.name == SetMediaState
    requires !Asks(c.parameters, "state", 16, "playing") && !Asks(c.parameters, "state", 16, "paused")
    ensures Transition(s, c, u) == Rejected(InvalidParameters)
  {
    hide Text, Asks;
    TextIs(c.parameters, "state", 16, "playing");
    TextIs(c.parameters, "state", 16, "paused");
    assert Text(c.parameters, "state", STATE_MAX) !in {Some("playing"), Some("paused")};
  }

  /** The newest suggestion first, then the older ones, eight at most. */
  lemma SuggestionEffect(s: Snapshot, c: Command, u: Supply, t: string)
    requires Coherent(s) && c.name == SubmitTripSuggestion && Asks(c.parameters, "suggestion", 200, t)
    ensures var o := Transition(s, c, u);
      && o.Changed? && !o.reset
      && var s' := o.snapshot;
        && s' == s.(suggestions := s'.suggestions,
                    flow := if s.mode == Takeover then RiskTakeover else PassengerCollaboration)
        && |s'.suggestions| == (if |s.suggestions| < 8 then |s.suggestions| + 1 else 8)
        && s'.suggestions[0] == t
        && forall i :: 0 < i < |s'.suggestions| ==> s'.suggestions[i] == s.suggestions[i - 1]
  {
    hide Text, Asks;
    TextIs(c.parameters, "suggestion", 200, t);
    assert Text(c.parameters, "suggestion", SUGGESTION_MAX) == Some(t);
  }

  /** A command about a text is refused when there is no such text, or it is too long. */
  lemma NoTextEffect(s: Snapshot, c: Command, u: Supply)
    requires match c.name
      case SelectDestination => forall t :: !Asks(c.parameters, "destinationName", 160, t)
      case SubmitTripSuggestion => forall t :: !Asks(c.parameters, "suggestion", 200, t)
      case AcknowledgeRisk => forall t :: !Asks(c.parameters, "eventId", 256, t)
      case ResolveRisk => forall t :: !Asks(c.parameters, "eventId", 256, t)
      case _ => false
    ensures Transition(s, c, u) == Rejected(InvalidParameters)
  {
    hide Text, Asks;
    match c.name
    case SelectDestination => NoText(c.parameters, "destinationName", DESTINATION_MAX);
    case SubmitTripSuggestion => NoText(c.parameters, "suggestion", SUGGESTION_MAX);
    case AcknowledgeRisk => NoText(c.parameters, "eventId", EVENT_ID_MAX);
    case ResolveRisk => NoText(c.parameters, "eventId", EVENT_ID_MAX);
  }

  lemma CabinEffect(s: Snapshot, c: Command, u: Supply)
    requires Coherent(s) && c.name == SetCabinControl
    ensures forall b :: c.parameters == map["privacyEnabled" := JBool(b)] ==>
      Transition(s, c, u) == if s.privacy == b then Same else Changed(s.(privacy := b), false)
    ensures (forall b :: c.parameters != map["privacyEnabled" := JBool(b)]) ==>
      Transition(s, c, u) == Rejected(InvalidParameters)
  {
    var p := c.parameters;
    if p.Keys == {"privacyEnabled"} && p["privacyEnabled"].JBool? {
      assert p == map["privacyEnabled" := JBool(p["privacyEnabled"].b)];
    }
  }

  // ---- The reset ----

  /** A night cockpit with nothing on, nothing connected and no history; the revision goes on. */
  ghost predicate Default(s: Snapshot, revision: nat, id: string, now: Time) {
    && s.sessionId == id && s.revision == revision && s.timestamp == now && s.theme == Night && s.mode == Normal
    && s.flow == NavigationHandoff && s.vehicleHealth == Health(Fresh, now)
    && s.navigationHealth == Health(Offline, now) && s.visionHealth == Health(Offline, now)
    && s.navigation == Navigation(NoProvider, NoService, Idle, None, 0, 0, now)
    && s.risks == [] && s.media == Paused && s.privacy && s.suggestions == []
    && s.connectivity.Keys == ENDPOINTS
    && forall e :: e in ENDPOINTS ==> s.connectivity[e] == Connection(Offline, now)
  }

  lemma ResetEffect(s: Snapshot, c: Command, u: Supply)
    requires c.name == ResetSession
    ensures var o := Transition(s, c, u);
      if c.parameters != map[] then o == Rejected(InvalidParameters)
      else o.Changed? && o.reset && Default(o.snapshot, s.revision, u.id, u.first)
  {
  }
}

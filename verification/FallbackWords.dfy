/** Every word of the closed vocabularies can stand in a line of text as it is. */
module FallbackWords {
  import opened Wrappers
  import opened AuditEvents
  import opened JsonText

  /** A short tame word. */
  predicate Word(s: string) { 0 < |s| <= 32 && Tame(s) }

  lemma CommandsAreWords(w: string)
    requires w in Of(Commands)
    ensures Word(w)
  {
    if w in {"acknowledge_risk", "confirm_route", "resolve_risk", "select_destination"} {
      RouteAndRiskCommands(w);
    } else if w in {"reset_session", "revoke_platform_session", "set_system_mode", "set_theme"} {
      SessionCommands(w);
    } else {
      PassengerCommands(w);
    }
  }

  lemma RouteAndRiskCommands(w: string)
    requires w in {"acknowledge_risk", "confirm_route", "resolve_risk", "select_destination"}
    ensures Word(w)
  {
  }

  lemma SessionCommands(w: string)
    requires w in {"reset_session", "revoke_platform_session", "set_system_mode", "set_theme"}
    ensures Word(w)
  {
  }

  lemma PassengerCommands(w: string)
    requires w in {"set_cabin_control", "set_media_state", "submit_trip_suggestion"}
    ensures Word(w)
  {
  }

  lemma ActionsAreWords(w: string)
    requires w in Of(Actions)
    ensures Word(w)
  {
    if w in {"auth.login", "auth.logout", "session.revoke"} {
      SessionActions(w);
    } else if w in {"cockpit.command", "recovery.completed", "risk.detected"} {
      CockpitActions(w);
    } else {
      UserActions(w);
    }
  }

  lemma SessionActions(w: string)
    requires w in {"auth.login", "auth.logout", "session.revoke"}
    ensures Word(w)
  {
  }

  lemma CockpitActions(w: string)
    requires w in {"cockpit.command", "recovery.completed", "risk.detected"}
    ensures Word(w)
  {
  }

  lemma UserActions(w: string)
    requires w in {"user.disable", "user.enable", "user.role_change"}
    ensures Word(w)
  {
  }

  lemma ErrorCodesAreWords(w: string)
    requires w in Of(ErrorCodes)
    ensures Word(w)
  {
    if w in {"admin_mutation_failed", "last_admin_protected", "user_not_found", "session_not_found"} {
      AdminErrors(w);
    } else if w in {"audit_conflict", "audit_unavailable", "database_unavailable", "internal_error"} {
      StoreErrors(w);
    } else if w in {"command_forbidden", "role_forbidden", "endpoint_mismatch", "source_mismatch"} {
      PermissionErrors(w);
    } else if w in {"command_not_implemented", "control_disabled", "invalid_parameters"} {
      CommandErrors(w);
    } else {
      RiskErrors(w);
    }
  }

  lemma AdminErrors(w: string)
    requires w in {"admin_mutation_failed", "last_admin_protected", "user_not_found", "session_not_found"}
    ensures Word(w)
  {
  }

  lemma StoreErrors(w: string)
    requires w in {"audit_conflict", "audit_unavailable", "database_unavailable", "internal_error"}
    ensures Word(w)
  {
  }

  lemma PermissionErrors(w: string)
    requires w in {"command_forbidden", "role_forbidden", "endpoint_mismatch", "source_mismatch"}
    ensures Word(w)
  {
  }

  lemma CommandErrors(w: string)
    requires w in {"command_not_implemented", "control_disabled", "invalid_parameters"}
    ensures Word(w)
  {
  }

  lemma RiskErrors(w: string)
    requires w in {"invalid_transition", "risk_not_found", "safety_suppressed"}
    ensures Word(w)
  {
  }

  lemma KeysAreWords(w: string)
    requires w in Of(KeyOrder)
    ensures Word(w)
  {
    if w in {"attempt", "count", "revokedSessionCount", "temperatureC"} {
      NumberKeys(w);
    } else if w in {"targetUserId", "oldRole", "newRole", "reason"} {
      UserKeys(w);
    } else if w in {"command", "eventId", "mode", "privacyEnabled"} {
      CockpitKeys(w);
    } else if w in {"state", "status", "theme"} {
      StateKeys(w);
    } else if w in {"api_key", "raw_secret", "raw_token", "session_secret"} {
      SecretKeys(w);
    } else {
      PrivateKeys(w);
    }
  }

  lemma NumberKeys(w: string)
    requires w in {"attempt", "count", "revokedSessionCount", "temperatureC"}
    ensures Word(w)
  {
  }

  lemma UserKeys(w: string)
    requires w in {"targetUserId", "oldRole", "newRole", "reason"}
    ensures Word(w)
  {
  }

  lemma CockpitKeys(w: string)
    requires w in {"command", "eventId", "mode", "privacyEnabled"}
    ensures Word(w)
  {
  }

  lemma StateKeys(w: string)
    requires w in {"state", "status", "theme"}
    ensures Word(w)
  {
  }

  lemma SecretKeys(w: string)
    requires w in {"api_key", "raw_secret", "raw_token", "session_secret"}
    ensures Word(w)
  {
  }

  lemma PrivateKeys(w: string)
    requires w in {"database_dsn", "destinationName", "private_text", "sql_error"}
    ensures Word(w)
  {
  }

  lemma EndpointsAreWords(w: string)
    requires w in Of(Endpoints) || w in Of(SourceTypes) || w == Redacted.s
    ensures Word(w)
  {
  }

  lemma TargetTypesAreWords(w: string)
    requires w in Of(TargetTypes)
    ensures Word(w)
  {
  }

  lemma VocabularyIsWords(key: string, w: string)
    requires w in Of(Vocabulary(key))
    ensures Word(w)
  {
    ParameterWords(Vocabulary(key), w);
  }

  lemma ParameterWords(words: Words, w: string)
    requires words in {Commands, Modes, Roles, Reasons, MediaStates, Statuses, Themes, NoWords} && w in Of(words)
    ensures Word(w)
  {
    match words {
      case Commands => CommandsAreWords(w);
      case Modes => ModesAreWords(w);
      case Themes => ModesAreWords(w);
      case Reasons => ReasonsAreWords(w);
      case Statuses => StatusesAreWords(w);
      case Roles => RolesAreWords(w);
      case MediaStates => RolesAreWords(w);
      case NoWords =>
    }
  }

  lemma ModesAreWords(w: string)
    requires w in Of(Modes) || w in Of(Themes)
    ensures Word(w)
  {
  }

  lemma ReasonsAreWords(w: string)
    requires w in Of(Reasons)
    ensures Word(w)
  {
  }

  lemma StatusesAreWords(w: string)
    requires w in Of(Statuses)
    ensures Word(w)
  {
  }

  lemma RolesAreWords(w: string)
    requires w in Of(Roles) || w in Of(MediaStates)
    ensures Word(w)
  {
  }
}

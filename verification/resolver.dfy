/**
 The four tiers from which a tool's safety profile is resolved.
 */
module Resolver {
  import opened Common
  import opened Types
  import Heuristics

  datatype ProfileRow = ProfileRow(risk: string, impact: string, cost: int, requiresHITL: bool, piiExposure: bool, rawProfile: string)

  datatype OverrideRow = OverrideRow(toolName: string, backendID: string, risk: string, impact: string, cost: int, requiresHITL: bool, piiExposure: bool)

  /** What the profile store answers; an absent key is a failed query. */
  datatype ProfileStore = ProfileStore(
    prefixes: map<string, string>,
    profiles: map<(string, string), ProfileRow>,
    userOverrides: map<string, seq<OverrideRow>>)

  function NamespacePrefix(store: ProfileStore, backendID: string): string {
    if backendID in store.prefixes && store.prefixes[backendID] != "" then store.prefixes[backendID] else backendID + "_"
  }

  function StripNamespacePrefix(store: ProfileStore, toolName: string, backendID: string): string {
    var prefix := NamespacePrefix(store, backendID);
    if HasPrefix(toolName, prefix) then TrimPrefix(toolName[|prefix|..], "_") else toolName
  }

  function SourceFromRawProfile(raw: string): Source {
    if Contains(raw, "\"source\":\"inferred\"") then Inferred else SelfReported
  }

  /** Agreement in everything but the tool, the backend and the source. */
  predicate SameSafety(p: SafetyProfile, q: SafetyProfile) {
    && p.risk == q.risk && p.impact == q.impact && p.cost == q.cost
    && p.requiresHITL == q.requiresHITL && p.piiExposure == q.piiExposure && p.idempotent == q.idempotent
  }

  function PersonalProfile(o: OverrideRow): SafetyProfile {
    SafetyProfile(o.toolName, o.backendID, o.risk, o.impact, o.cost, o.requiresHITL, o.piiExposure, false, UserOverride)
  }

  function StoredProfile(r: ProfileRow, toolName: string, backendID: string): SafetyProfile {
    SafetyProfile(toolName, backendID, r.risk, r.impact, r.cost, r.requiresHITL, r.piiExposure, false,
                  SourceFromRawProfile(r.rawProfile))
  }

  /** A stored row was inferred exactly when its raw profile says so somewhere; its fields are taken as they stand. */
  lemma StoredRowIsTakenAsItStands(r: ProfileRow, toolName: string, backendID: string)
    ensures var p := StoredProfile(r, toolName, backendID);
            && p.toolName == toolName && p.backendID == backendID
            && p.risk == r.risk && p.impact == r.impact && p.cost == r.cost
            && p.requiresHITL == r.requiresHITL && p.piiExposure == r.piiExposure
            && (p.source == Inferred <==> exists i :: OccursAt(r.rawProfile, "\"source\":\"inferred\"", i))
            && (p.source == SelfReported <==> p.source != Inferred)
  {}

  /** So are the fields of a personal override. */
  lemma PersonalRowIsTakenAsItStands(o: OverrideRow)
    ensures var p := PersonalProfile(o);
            && p.toolName == o.toolName && p.backendID == o.backendID && p.source == UserOverride
            && p.risk == o.risk && p.impact == o.impact && p.cost == o.cost
            && p.requiresHITL == o.requiresHITL && p.piiExposure == o.piiExposure
  {}

  /** A tool nobody described has the profile of its name. */
  lemma UnknownToolIsInferredFromItsName(toolName: string, backendID: string)
    ensures var p, h := InferDefaults(toolName, backendID), Heuristics.ProfileOf(Heuristics.TABLES, toolName, "", None);
            && p.source == Inferred && p.toolName == toolName && p.backendID == backendID
            && p.impact == h.impact && p.cost == h.cost && p.requiresHITL == h.requiresHITL
            && p.piiExposure == h.piiExposure && p.idempotent == h.idempotent
            && (h.risk == Heuristics.Low ==> p.risk == "low") && (h.risk == Heuristics.Medium ==> p.risk == "medium")
            && (h.risk == Heuristics.High ==> p.risk == "high") && (h.risk == Heuristics.Critical ==> p.risk == "critical")
  {}

  predicate IsFor(row: OverrideRow, toolName: string, backendID: string) {
    row.toolName == toolName && row.backendID == backendID
  }

  function FirstOverride(rows: seq<OverrideRow>, toolName: string, backendID: string): (first: Option<OverrideRow>)
    ensures first.None? <==> forall row | row in rows :: !IsFor(row, toolName, backendID)
    ensures first.Some? ==> first.value in rows && IsFor(first.value, toolName, backendID)
    ensures first.Some? ==> exists i | 0 <= i < |rows| :: rows[i] == first.value && forall k | 0 <= k < i :: !IsFor(rows[k], toolName, backendID)
  {
    if rows == [] then None
    else if IsFor(rows[0], toolName, backendID) then Some(rows[0])
    else FirstOverride(rows[1..], toolName, backendID)
  }

  function InferDefaults(toolName: string, backendID: string): SafetyProfile {
    var p := Heuristics.ProfileOf(Heuristics.TABLES, toolName, "", None);
    SafetyProfile(toolName, backendID, Heuristics.RiskName(p.risk), p.impact, p.cost, p.requiresHITL, p.piiExposure,
                  p.idempotent, Inferred)
  }

  /** The user has an override of their own for the tool. */
  predicate HasPersonal(store: ProfileStore, userID: string, toolName: string, backendID: string) {
    && userID != "" && userID in store.userOverrides
    && exists row | row in store.userOverrides[userID] :: IsFor(row, toolName, backendID)
  }

  class MetadataResolver {
    const store: ProfileStore
    var overrides: map<string, SafetyProfile>

    constructor (store: ProfileStore)
      ensures this.store == store && overrides == map[]
    {
      this.store := store;
      overrides := map[];
    }

    /** False when the profile lacks a risk level or an impact scope. */
    method RegisterOverride(toolName: string, backendID: string, profile: SafetyProfile) returns (ok: bool)
      modifies this
      ensures ok == (profile.risk != "" && profile.impact != "")
      ensures overrides == if ok then old(overrides)[toolName + "|" + backendID := profile] else old(overrides)
    {
      if profile.risk == "" || profile.impact == "" {
        return false;
      }
      overrides := overrides[toolName + "|" + backendID := profile];
      return true;
    }

    /** Admin override, then personal override, then stored profile, then inference. */
    function ResolveForUser(toolName: string, backendID: string, userID: string): (p: SafetyProfile)
      reads this
      ensures p.toolName == toolName && p.backendID == backendID
      ensures p.source == Override <==> toolName + "|" + backendID in overrides
      ensures p.source == UserOverride <==>
                toolName + "|" + backendID !in overrides && HasPersonal(store, userID, toolName, backendID)
      ensures p.source == Override ==> SameSafety(p, overrides[toolName + "|" + backendID])
      ensures p.source == UserOverride ==> exists row | row in store.userOverrides[userID] ::
                IsFor(row, toolName, backendID) && p == PersonalProfile(row)
      ensures var stored := (backendID, StripNamespacePrefix(store, toolName, backendID));
              p.source != Override && p.source != UserOverride ==>
                p == if stored in store.profiles then StoredProfile(store.profiles[stored], toolName, backendID)
                     else InferDefaults(toolName, backendID)
      ensures p.source in {Override, UserOverride, SelfReported, Inferred}
    {
      var key := toolName + "|" + backendID;
      var personal := if userID != "" && userID in store.userOverrides
                      then FirstOverride(store.userOverrides[userID], toolName, backendID) else None;
      var stored := (backendID, StripNamespacePrefix(store, toolName, backendID));
      if key in overrides then
        overrides[key].(toolName := toolName, backendID := backendID, source := Override)
      else if personal.Some? then
        PersonalProfile(personal.value)
      else if stored in store.profiles then
        StoredProfile(store.profiles[stored], toolName, backendID)
      else
        InferDefaults(toolName, backendID)
    }
  }
}

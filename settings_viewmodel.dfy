/**
  The settings page's view-model (pages/settings/viewmodel.py): two
  preference flags whose setters change the state, and emit it, only when
  the value actually changes.
*/
module SettingsViewModels {
  datatype SettingsUiState = SettingsUiState(
    enable_feature_x: bool,
    enable_logging: bool,
    environment: string,
    version: string
  )

  /** A setter's effect: the state afterwards and the `state_changed` emissions. */
  datatype Step = Step(state: SettingsUiState, emitted: seq<SettingsUiState>)

  /** `set_enable_feature_x` as a transition of the state. */
  function SetFeatureX(s: SettingsUiState, value: bool): (r: Step)
    ensures r.state.enable_feature_x == value
    ensures r.state.enable_logging == s.enable_logging
    ensures r.state.environment == s.environment && r.state.version == s.version
    ensures r.emitted == [] <==> value == s.enable_feature_x
    ensures r.emitted != [] ==> r.emitted == [r.state]
  {
    if value == s.enable_feature_x then Step(s, []) else Step(s.(enable_feature_x := value), [s.(enable_feature_x := value)])
  }

  /** `set_enable_logging` as a transition of the state. */
  function SetLogging(s: SettingsUiState, value: bool): (r: Step)
    ensures r.state.enable_logging == value
    ensures r.state.enable_feature_x == s.enable_feature_x
    ensures r.state.environment == s.environment && r.state.version == s.version
    ensures r.emitted == [] <==> value == s.enable_logging
    ensures r.emitted != [] ==> r.emitted == [r.state]
  {
    if value == s.enable_logging then Step(s, []) else Step(s.(enable_logging := value), [s.(enable_logging := value)])
  }

  /** Two steps in a row: the second from the first's state, emissions concatenated. */
  function Then(a: Step, b: SettingsUiState -> Step): Step {
    var c := b(a.state);
    Step(c.state, a.emitted + c.emitted)
  }

  /** Setting a flag twice to the same value is setting it once: same state, same emissions. */
  lemma SettersIdempotent(s: SettingsUiState, value: bool)
    ensures Then(SetFeatureX(s, value), t => SetFeatureX(t, value)) == SetFeatureX(s, value)
    ensures Then(SetLogging(s, value), t => SetLogging(t, value)) == SetLogging(s, value)
  {
    assert SetFeatureX(SetFeatureX(s, value).state, value).emitted == [];
    assert SetLogging(SetLogging(s, value).state, value).emitted == [];
  }

  class SettingsViewModel {
    var state: SettingsUiState
    /** Every `state_changed` emission so far, in order. */
    ghost var signals: seq<SettingsUiState>

    /** `__init__`: feature X off, logging on, environment and version from the configuration. */
    constructor(environment: string, version: string)
      ensures state == SettingsUiState(false, true, environment, version) && signals == []
    {
      state := SettingsUiState(false, true, environment, version);
      signals := [];
    }

    /** `set_enable_feature_x`. */
    method SetEnableFeatureX(value: bool)
      modifies this
      ensures state == SetFeatureX(old(state), value).state
      ensures signals == old(signals) + SetFeatureX(old(state), value).emitted
    {
      if value == state.enable_feature_x {
        return;
      }
      state := state.(enable_feature_x := value);
      signals := signals + [state];
    }

    /** `set_enable_logging`. */
    method SetEnableLogging(value: bool)
      modifies this
      ensures state == SetLogging(old(state), value).state
      ensures signals == old(signals) + SetLogging(old(state), value).emitted
    {
      if value == state.enable_logging {
        return;
      }
      state := state.(enable_logging := value);
      signals := signals + [state];
    }
  }
}

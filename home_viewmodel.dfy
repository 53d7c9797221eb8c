/**
  The home page's view-model (pages/home/viewmodel.py): status and message
  replaced by each command, and the info and error events it raises.
*/
module HomeViewModels {
  import opened Text
  import opened StatusStyles

  datatype HomeUiState = HomeUiState(environment: string, version: string, status: Status, message: string)

  /** `HomeShowInfo` and `HomeShowError`; both target "global" unless told otherwise. */
  datatype HomeEvent =
    | HomeShowInfo(message: string, target: string := "global")
    | HomeShowError(message: string, target: string := "global")

  datatype Signal = StateChanged(state: HomeUiState) | Raised(event: HomeEvent)

  /** The message `submit_entry` shows for a name and tag that have been stripped. */
  function SubmittedMessage(name: string, tag: string): string {
    "Submitted '" + name + "' with tag '" + tag + "'."
  }

  class HomeViewModel {
    /** The configuration's environment and version, read once at construction. */
    const environment: string
    const version: string

    var state: HomeUiState
    /** Every signal emitted so far, in order. */
    ghost var signals: seq<Signal>

    /** Environment and version in the state are always the configured ones. */
    ghost predicate Valid()
      reads this
    {
      state.environment == environment && state.version == version
    }

    /** `__init__`: unknown status, "Idle", and the configured environment and version. */
    constructor(environment: string, version: string)
      ensures Valid() && this.environment == environment && this.version == version
      ensures state.status == Unknown && state.message == "Idle" && signals == []
    {
      this.environment := environment;
      this.version := version;
      state := HomeUiState(environment, version, Unknown, "Idle");
      signals := [];
    }

    /** `_set_status`: replaces status and message only. */
    method SetStatus(status: Status, message: string)
      requires Valid()
      modifies this
      ensures Valid()
      ensures state == old(state).(status := status, message := message)
      ensures signals == old(signals) + [StateChanged(state)]
    {
      state := state.(status := status, message := message);
      signals := signals + [StateChanged(state)];
    }

    /** `run`: warning "Run started...", then info for the overview. */
    method Run()
      requires Valid()
      modifies this
      ensures Valid()
      ensures state == old(state).(status := Warning, message := "Run started...")
      ensures signals == old(signals) + [StateChanged(state), Raised(HomeShowInfo("Run command dispatched.", "overview"))]
    {
      SetStatus(Warning, "Run started...");
      signals := signals + [Raised(HomeShowInfo("Run command dispatched.", target := "overview"))];
    }

    /** `validate`: nominal with the success message, then info for the overview. */
    method Validate()
      requires Valid()
      modifies this
      ensures Valid()
      ensures state == old(state).(status := Nominal, message := "Validation completed successfully.")
      ensures signals == old(signals) + [StateChanged(state), Raised(HomeShowInfo("Validation finished.", "overview"))]
    {
      SetStatus(Nominal, "Validation completed successfully.");
      signals := signals + [Raised(HomeShowInfo("Validation finished.", target := "overview"))];
    }

    /**
      `submit_entry`: a blank name raises the error for the data-entry tab
      first and then turns critical; otherwise caution with the stripped name
      and tag, then info for the data-entry tab.
    */
    method SubmitEntry(name: string, tag: string)
      requires Valid()
      modifies this
      ensures Valid()
      ensures Strip(name) == "" ==>
                && state == old(state).(status := Critical, message := "Missing name for submission.")
                && signals == old(signals) + [Raised(HomeShowError("Name is required.", "data_entry")), StateChanged(state)]
      ensures Strip(name) != "" ==>
                && state == old(state).(status := Caution, message := SubmittedMessage(Strip(name), Strip(tag)))
                && signals == old(signals) + [StateChanged(state), Raised(HomeShowInfo("Form submitted.", "data_entry"))]
    {
      var cleanedName := Strip(name);
      var cleanedTag := Strip(tag);
      if cleanedName == "" {
        signals := signals + [Raised(HomeShowError("Name is required.", target := "data_entry"))];
        SetStatus(Critical, "Missing name for submission.");
        return;
      }
      SetStatus(Caution, "Submitted '" + cleanedName + "' with tag '" + cleanedTag + "'.");
      signals := signals + [Raised(HomeShowInfo("Form submitted.", target := "data_entry"))];
    }
  }

  /** Surrounding whitespace does not change what is submitted. */
  lemma SubmissionIgnoresPadding(pre: string, name: string, post: string, tag: string)
    requires AllSpace(pre) && AllSpace(post)
    ensures SubmittedMessage(Strip(pre + name + post), Strip(tag)) == SubmittedMessage(Strip(name), Strip(tag))
  {
    StripAbsorbsPadding(pre, name, post);
  }
}

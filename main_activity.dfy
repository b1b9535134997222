/** The main screen: the mode spinner, the picked image, the three send buttons and
    the observer that turns each state into the list of feedback items. */
module Activity {
  import opened Optional
  import opened PoseApi
  import opened PoseRepository
  import opened ViewModel
  import opened Feedback

  /** The spinner's entries; the first stands for "no mode". */
  const Modes: seq<string> := ["default(빈값)", "squat", "pushup"]

  /** `spinnerModeOrNull`: no selection, or a selection starting with "default", means no
      mode; any other selection is the mode itself. */
  function SpinnerModeOrNull(selected: Option<string>): (mode: Option<string>)
    ensures mode.None? <==> selected.None? || "default" <= selected.value
    ensures mode.Some? ==> mode == selected
  {
    match selected
    case None => None
    case Some(sel) => if "default" <= sel then None else Some(sel)
  }

  /** On the spinner's own entries: the first gives no mode, the others themselves. */
  lemma SpinnerEntries()
    ensures SpinnerModeOrNull(Some(Modes[0])) == None
    ensures SpinnerModeOrNull(Some(Modes[1])) == Some("squat")
    ensures SpinnerModeOrNull(Some(Modes[2])) == Some("pushup")
  {
  }

  /** The items the observer hands to a new feedback adapter for a state; None when it
      leaves the current adapter in place (Idle and Loading). */
  function FeedbackItems(s: UiState): (items: Option<seq<string>>)
    ensures items.None? <==> !s.Terminal()
    ensures s.SimpleOk? ==> |items.value| <= 1 && (items.value == [] <==> s.simple.feedback.None?)
    ensures s.SimpleOk? && s.simple.feedback.Some? ==> items.value == [s.simple.feedback.value]
    ensures s.FullOk? ==> items.value == s.full.feedback.GetOr([])
    ensures s.OverlayOk? || s.Error? ==> items == Some([])
  {
    match s
    case Idle => None
    case Loading => None
    case SimpleOk(data) => Some(ListOfNotNull([data.feedback]))
    case FullOk(data) => Some(data.feedback.GetOr([]))
    case OverlayOk(_) => Some([])
    case Error(_) => Some([])
  }

  class MainActivity {
    const vm: PoseViewModel
    /** `pickedFile`: the cached copy of the last image picked, null until one is. */
    var pickedFile: Option<ImageFile>
    /** The spinner's selected entry. */
    var selection: Option<string>
    /** The adapter attached to the feedback list, none until the first result. */
    var adapter: Option<FeedbackAdapter>

    constructor (vm: PoseViewModel)
      ensures this.vm == vm
      ensures pickedFile == None && selection == Some(Modes[0]) && adapter == None
    {
      this.vm := vm;
      pickedFile := None;
      selection := Some(Modes[0]);
      adapter := None;
    }

    /** The user chooses a spinner entry. */
    method SelectMode(index: nat)
      requires index < |Modes|
      modifies this`selection
      ensures selection == Some(Modes[index])
    {
      selection := Some(Modes[index]);
    }

    /** The pick callback, given the cached copy of the picked image (None when the
        picker returned no image): a cancelled pick keeps the previous file. */
    method OnImagePicked(copied: Option<ImageFile>)
      modifies this`pickedFile
      ensures pickedFile == if copied.Some? then copied else old(pickedFile)
    {
      if copied.Some? {
        pickedFile := copied;
      }
    }

    /** A send button: Simple, Full and Overlay start the matching intent with the picked
        file and the spinner's mode; with no file picked the click does nothing. */
    method OnSend(button: Variant) returns (sent: bool)
      requires vm.Valid()
      modifies vm
      ensures vm.Valid()
      ensures sent <==> pickedFile.Some?
      ensures !sent ==> unchanged(vm)
      ensures sent ==> vm.state == Loading && vm.history == old(vm.history) + [Loading]
      ensures sent ==> vm.calls == old(vm.calls) + [Request(button, pickedFile.value, SpinnerModeOrNull(selection))]
      ensures sent ==> vm.pending == old(vm.pending) + multiset{button}
    {
      if pickedFile.None? {
        return false;
      }
      var mode := SpinnerModeOrNull(selection);
      vm.Start(button, pickedFile.value, mode);
      sent := true;
    }

    /** The state observer, as far as the feedback list goes. */
    method OnState(s: UiState)
      modifies this`adapter
      ensures adapter == match FeedbackItems(s)
                         case Some(items) => Some(FeedbackAdapter(items))
                         case None => old(adapter)
    {
      var items := FeedbackItems(s);
      if items.Some? {
        adapter := Some(FeedbackAdapter(items.value));
      }
    }
  }
}

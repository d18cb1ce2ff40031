/**
 * What every heuristic hands to the page's response handler, and that
 * handler (handleDetection) as a sink that records each reason it receives.
 */
module Detection {
  import opened Wrappers

  /** The heuristics of script.js that this model covers, one per reason tag. */
  datatype Reason =
    | RightClick          // the contextmenu listener
    | F12Key              // keydown: F12
    | InspectorShortcut   // keydown: Ctrl/Cmd+Shift+I or J
    | ViewSource          // keydown: Ctrl/Cmd+U
    | ElementPicker       // keydown: Ctrl/Cmd+Shift+C
    | SizeDelta           // the outer/inner window size poll

  /** The exact string each heuristic passes to handleDetection. */
  function Tag(r: Reason): string
  {
    match r
    case RightClick => "Clique direito (contextmenu)"
    case F12Key => "F12"
    case InspectorShortcut => "Ctrl/Cmd+Shift+I/J"
    case ViewSource => "Ctrl/Cmd+U"
    case ElementPicker => "Ctrl/Cmd+Shift+C"
    case SizeDelta => "Diff outer/inner window size"
  }

  /** The handler can tell every heuristic apart from the string alone. */
  lemma TagIsInjective(a: Reason, b: Reason)
    ensures Tag(a) == Tag(b) <==> a == b
  {
  }

  /**
   * What one input event leads to: at most one reason, and whether the
   * listener called preventDefault on the event.
   */
  datatype Response = Response(reason: Option<Reason>, preventDefault: bool)
  {
    /** A listener suppresses the event exactly when it reports it. */
    predicate WellFormed()
    {
      preventDefault <==> reason.Some?
    }
  }

  /** The listener fired: it suppressed the event and reports `r`. */
  function Detected(r: Reason): (resp: Response)
    ensures resp.WellFormed() && resp.reason == Some(r)
  {
    Response(Some(r), true)
  }

  /** The listener ran to completion without matching anything. */
  const Ignored: Response := Response(None, false)

  /**
   * handleDetection: its behaviour is supplied by the host page; here it
   * only records, in order, every reason string it is called with.
   */
  class DetectionLog {
    var reasons: seq<string>

    constructor ()
      ensures reasons == []
    {
      reasons := [];
    }

    /** handleDetection(Tag(r)): the handler receives one more reason string. */
    method Handle(r: Reason)
      modifies this
      ensures reasons == old(reasons) + [Tag(r)]
    {
      reasons := reasons + [Tag(r)];
    }
  }
}

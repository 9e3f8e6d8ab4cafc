/**
 The client's two bounded lists of detections: the visible one and, while paused, the pending one,
 both newest first.
 */
module DetectionBuffers {
  import opened Prelude

  /** A detection, of which the lists look at nothing. */
  datatype Detection = Detection(eventId: string, content: string)

  const MAX_DETECTIONS: nat := 1000

  datatype ViewMode = Detections | FileContexts

  datatype IpcEvent = Connected | Disconnected | Arrived(detection: Detection) | Other

  datatype Message =
    | Ipc(event: IpcEvent)
    | FilterChanged(text: string)
    | DetectionSelected(index: nat)
    | ToggleExpanded(id: string)
    | ThemeChanged
    | TogglePause
    | ViewModeChanged(viewMode: ViewMode)
    | RefreshFileContexts
    | FileContextsLoaded
    | Tick(next: Option<IpcEvent>)  // polls at most one event

  /** What the two lists depend on. */
  datatype View = View(
    detections: seq<Detection>, pending: seq<Detection>, paused: bool, expanded: set<string>, viewMode: ViewMode)

  const INIT: View := View([], [], false, {}, Detections)

  // ----- What each message means

  function Newest(s: seq<Detection>): (r: seq<Detection>)
    ensures |r| <= MAX_DETECTIONS
  {
    First(MAX_DETECTIONS, s)
  }

  /** The first `n` elements, or all if there are fewer. */
  function First(n: nat, s: seq<Detection>): (r: seq<Detection>)
    ensures |r| <= n && r <= s && (|r| == n || r == s)
  {
    if |s| <= n then s else s[..n]
  }

  function OnEvent(v: View, event: IpcEvent): View {
    match event
    case Arrived(d) =>
      if v.paused then v.(pending := Newest([d] + v.pending)) else v.(detections := Newest([d] + v.detections))
    case _ => v
  }

  function OnMessage(v: View, m: Message): View {
    match m
    case Ipc(event) => OnEvent(v, event)
    case Tick(Some(event)) => OnEvent(v, event)
    case ToggleExpanded(id) =>
      if id in v.expanded then v.(expanded := v.expanded - {id})
      else v.(expanded := v.expanded + {id}, paused := v.paused || v.viewMode == Detections)
    case TogglePause =>
      if v.paused then v.(paused := false, pending := [], detections := Newest(v.pending + v.detections))
      else v.(paused := true)
    case ViewModeChanged(viewMode) => v.(viewMode := viewMode)
    case _ => v
  }

  function OnMessages(ms: seq<Message>): View {
    if ms == [] then INIT else OnMessage(OnMessages(ms[..|ms| - 1]), ms[|ms| - 1])
  }

  // ----- The same in place

  class GalateaGui {
    var connected: bool
    var detections: seq<Detection>
    var pendingDetections: seq<Detection>
    var selectedDetection: Option<nat>
    var expandedEvents: set<string>
    var filterText: string
    var paused: bool
    var viewMode: ViewMode

    ghost predicate Valid() reads this {
      |detections| <= MAX_DETECTIONS && |pendingDetections| <= MAX_DETECTIONS
    }

    ghost function State(): View reads this {
      View(detections, pendingDetections, paused, expandedEvents, viewMode)
    }

    constructor ()
      ensures Valid() && State() == INIT
    {
      connected, filterText, selectedDetection := false, "", None;
      detections, pendingDetections, expandedEvents := [], [], {};
      paused, viewMode := false, Detections;
    }

    method UpdateIpc(event: IpcEvent)
      requires Valid()
      modifies this
      ensures Valid() && State() == OnEvent(old(State()), event)
      ensures event.Arrived? ==>
                if old(paused) then
                  pendingDetections == First(1000, [event.detection] + old(pendingDetections))
                else
                  detections == First(1000, [event.detection] + old(detections))
      ensures old(paused) || !event.Arrived? ==> detections == old(detections)
      ensures !old(paused) || !event.Arrived? ==> pendingDetections == old(pendingDetections)
      ensures paused == old(paused) && expandedEvents == old(expandedEvents) && viewMode == old(viewMode)
    {
      match event {
        case Connected => connected := true;
        case Disconnected => connected := false;
        case Arrived(detection) =>
          if paused {
            pendingDetections := [detection] + pendingDetections;
            if |pendingDetections| > MAX_DETECTIONS {
              pendingDetections := pendingDetections[..|pendingDetections| - 1];
            }
          } else {
            detections := [detection] + detections;
            if |detections| > MAX_DETECTIONS {
              detections := detections[..|detections| - 1];
            }
          }
        case Other =>
      }
    }

    /** Moves what is pending to the visible list, oldest first, and trims that list. */
    method Resume()
      requires Valid() && !paused
      modifies this`detections, this`pendingDetections
      ensures Valid() && pendingDetections == []
      ensures detections == Newest(old(pendingDetections) + old(detections))
    {
      while pendingDetections != []
        invariant pendingDetections + detections == old(pendingDetections) + old(detections)
        decreases |pendingDetections|
      {
        var last := |pendingDetections| - 1;
        detections, pendingDetections := [pendingDetections[last]] + detections, pendingDetections[..last];
      }
      ghost var all := detections;
      while |detections| > MAX_DETECTIONS
        invariant |detections| <= |all| && detections == all[..|detections|]
        invariant |detections| < MAX_DETECTIONS ==> detections == all
        invariant pendingDetections == []
      {
        detections := detections[..|detections| - 1];
      }
    }

    method Update(message: Message)
      requires Valid()
      modifies this
      ensures Valid() && State() == OnMessage(old(State()), message)
      ensures message.TogglePause? ==>
                && paused == !old(paused)
                && (if old(paused) then
                      && detections == First(1000, old(pendingDetections) + old(detections))
                      && pendingDetections == []
                    else
                      detections == old(detections) && pendingDetections == old(pendingDetections))
      ensures message.ToggleExpanded? ==>
                && (forall id :: id in expandedEvents <==> (id in old(expandedEvents)) != (id == message.id))
                && (paused <==> old(paused) || (old(viewMode).Detections? && message.id !in old(expandedEvents)))
                && detections == old(detections) && pendingDetections == old(pendingDetections)
      ensures viewMode == if message.ViewModeChanged? then message.viewMode else old(viewMode)
    {
      match message {
        case Ipc(event) => UpdateIpc(event);
        case FilterChanged(text) => filterText := text;
        case DetectionSelected(index) => selectedDetection := Some(index);
        case ToggleExpanded(id) =>
          if id in expandedEvents {
            expandedEvents := expandedEvents - {id};
          } else {
            expandedEvents := expandedEvents + {id};
            if viewMode == Detections && !paused {
              paused := true;
            }
          }
        case TogglePause =>
          paused := !paused;
          if !paused {
            Resume();
          }
        case ViewModeChanged(mode) =>
          viewMode := mode;
          filterText := "";
        case Tick(Some(event)) => UpdateIpc(event);
        case _ =>
      }
    }
  }

  // ----- The two lists and the log of everything received

  /** The detection a message brings, if any. */
  function Brought(m: Message): seq<Detection> {
    match m
    case Ipc(Arrived(d)) => [d]
    case Tick(Some(Arrived(d))) => [d]
    case _ => []
  }

  /** Everything received, newest first. */
  function Log(ms: seq<Message>): seq<Detection> {
    if ms == [] then [] else Brought(ms[|ms| - 1]) + Log(ms[..|ms| - 1])
  }

  ghost predicate Refines(v: View, log: seq<Detection>) {
    && Newest(v.pending + v.detections) == Newest(log)
    && |v.pending| <= MAX_DETECTIONS && |v.detections| <= MAX_DETECTIONS
    && (!v.paused ==> v.pending == [])
  }

  lemma NewestAgain(s: seq<Detection>, t: seq<Detection>)
    ensures Newest(Newest(s) + t) == Newest(s + t)
  {
  }

  /** A new element in front of two lists with the same newest elements. */
  lemma NewestNext(d: Detection, s: seq<Detection>, t: seq<Detection>)
    requires Newest(s) == Newest(t)
    ensures Newest([d] + s) == Newest([d] + t)
  {
    assert forall u: seq<Detection> :: Newest([d] + u) == Newest([d] + Newest(u));
  }

  lemma ArrivalRefines(v: View, log: seq<Detection>, d: Detection)
    requires Refines(v, log)
    ensures Refines(OnEvent(v, Arrived(d)), [d] + log)
  {
    NewestNext(d, v.pending + v.detections, log);
    assert [d] + v.pending + v.detections == [d] + (v.pending + v.detections);
    if v.paused {
      NewestAgain([d] + v.pending, v.detections);
    } else {
      assert [] + Newest([d] + v.detections) == Newest([d] + v.detections);
      assert [] + v.detections == v.detections;
      NewestAgain([d] + v.detections, []);
    }
    hide Newest;
  }

  lemma MessageRefines(v: View, log: seq<Detection>, m: Message)
    requires Refines(v, log)
    ensures Refines(OnMessage(v, m), Brought(m) + log)
  {
    match m {
      case Ipc(Arrived(d)) => ArrivalRefines(v, log, d);
      case Tick(Some(Arrived(d))) => ArrivalRefines(v, log, d);
      case _ => assert Brought(m) + log == log;
    }
  }

  /** After any messages, the newest thousand of what is pending and what is visible are the newest
      thousand received, newest first; nothing is pending unless paused. */
  lemma {:induction false} BuffersHoldTheNewest(ms: seq<Message>)
    ensures Refines(OnMessages(ms), Log(ms))
  {
    if ms != [] {
      BuffersHoldTheNewest(ms[..|ms| - 1]);
      MessageRefines(OnMessages(ms[..|ms| - 1]), Log(ms[..|ms| - 1]), ms[|ms| - 1]);
    }
  }

  /** Unpaused, the visible list is the newest thousand received. */
  lemma VisibleIsTheNewest(ms: seq<Message>)
    requires !OnMessages(ms).paused
    ensures OnMessages(ms).detections == Newest(Log(ms)) && OnMessages(ms).pending == []
  {
    BuffersHoldTheNewest(ms);
  }

  lemma PausedStep(v: View, log: seq<Detection>, pending: seq<Detection>, m: Message)
    requires v.paused && v.pending == Newest(log + pending) && m != TogglePause
    ensures var w := OnMessage(v, m);
            w.paused && w.detections == v.detections && w.pending == Newest(Brought(m) + log + pending)
  {
    var brought := Brought(m);
    if brought != [] {
      NewestNext(brought[0], v.pending, log + pending);
      assert brought + log + pending == [brought[0]] + (log + pending);
    } else {
      assert brought + log + pending == log + pending;
    }
  }

  /** While paused the visible list does not move, and what has arrived since is pending. */
  lemma {:induction false} PausedListStandsStill(ms: seq<Message>, more: seq<Message>)
    requires OnMessages(ms).paused && TogglePause !in more
    ensures var (v, w) := (OnMessages(ms), OnMessages(ms + more));
            w.paused && w.detections == v.detections && w.pending == Newest(Log(more) + v.pending)
  {
    if more == [] {
      assert ms + more == ms;
      BuffersHoldTheNewest(ms);
      assert Log(more) + OnMessages(ms).pending == OnMessages(ms).pending;
    } else {
      var n := |more| - 1;
      assert (ms + more)[..|ms + more| - 1] == ms + more[..n];
      assert more[n] in more;
      PausedListStandsStill(ms, more[..n]);
      PausedStep(OnMessages(ms + more[..n]), Log(more[..n]), OnMessages(ms).pending, more[n]);
      hide OnMessage, Newest, Brought;
    }
  }
}

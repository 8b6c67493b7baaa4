/**
 * The text layer component: the lifecycle that loads a page's text items
 * (mount, update, unmount, and the resolution or rejection of each load), the
 * rendering of the loaded items into positioned fragments, and the container's
 * counter-rotation.
 *
 * A page is known by the identity of its object (`PageId`); a load task is
 * known by its position in the order in which loads were started (`TaskId`).
 */
module TextLayerComponent {
  import opened Wrappers
  import opened FragmentPosition

  type PageId = nat
  type TaskId = nat

  /** One extracted text item: its string and its transform. */
  datatype TextItem = TextItem(str: string, transform: Transform)

  /** What one rendered span carries: its text, font size, top and left, all in screen units. */
  datatype Fragment = Fragment(text: string, fontSize: real, top: real, left: real)

  /**
   * `state.textItems`: `null` before any load has settled, `false` after a
   * failed load, the item array after a successful one (an empty array is
   * still a loaded state).
   */
  datatype LoadState = NotLoaded | Failed | Loaded(items: seq<TextItem>)

  /** Why a load failed: the reason the text extraction rejected with. */
  datatype TaskError = ExtractionFailed(reason: string)

  /** The props the component reads; an observer is either provided or not. */
  datatype Props = Props(page: Option<PageId>, scale: real, rotate: int,
                         hasSuccessObserver: bool, hasErrorObserver: bool)

  datatype Phase = Created | Mounted | Unmounted

  /**
   * The span for one item: its string, with its rendered height, top and left
   * multiplied by the display scale, the height becoming the font size.
   */
  function ScaledFragment(item: TextItem, scale: real, vp: Viewport): Fragment
  {
    var r := ItemRect(vp, item.transform);
    Fragment(item.str, r.height * scale, r.top * scale, r.left * scale)
  }

  /** The fragments for a list of items under one viewport and scale: one per item, in order. */
  function Fragments(items: seq<TextItem>, scale: real, vp: Viewport): (fs: seq<Fragment>)
    ensures |fs| == |items|
    ensures forall i :: 0 <= i < |items| ==> fs[i] == ScaledFragment(items[i], scale, vp)
  {
    if items == [] then [] else [ScaledFragment(items[0], scale, vp)] + Fragments(items[1..], scale, vp)
  }

  /**
   * Fragment `i` carries item `i`'s string, and its font size, top and left
   * are that item's rendered height, top and left times the scale.
   */
  lemma FragmentOfItem(items: seq<TextItem>, scale: real, vp: Viewport, i: nat)
    requires i < |items|
    ensures Fragments(items, scale, vp)[i].text == items[i].str
    ensures Fragments(items, scale, vp)[i].fontSize == ItemRect(vp, items[i].transform).height * scale
    ensures Fragments(items, scale, vp)[i].top == ItemRect(vp, items[i].transform).top * scale
    ensures Fragments(items, scale, vp)[i].left == ItemRect(vp, items[i].transform).left * scale
  {
    var f := ScaledFragment(items[i], scale, vp);
    var r := ItemRect(vp, items[i].transform);
    assert f == Fragment(items[i].str, r.height * scale, r.top * scale, r.left * scale);
    assert Fragments(items, scale, vp)[i] == f;
  }

  class TextLayer {
    var props: Props
    var phase: Phase
    /** `state.textItems`. */
    var textItems: LoadState
    /** `this.runningTask`: the last task recorded, never cleared. */
    var runningTask: Option<TaskId>
    /** The page each task was started on, in order: task `t` loads `requests[t]`. */
    var requests: seq<PageId>
    /** Tasks started whose result has neither been delivered nor been cancelled. */
    var pending: set<TaskId>
    /** Tasks whose `cancel` has been called. */
    var cancelled: set<TaskId>
    /** The arguments of every call of `onGetTextSuccess`, in order. */
    var successCalls: seq<seq<TextItem>>
    /** The arguments of every call of `onGetTextError`, in order. */
    var errorCalls: seq<TaskError>

    ghost predicate Valid()
      reads this
    {
      runningTask == (if |requests| == 0 then None else Some(|requests| - 1)) &&
      (forall t :: t in pending ==> t < |requests|) &&
      (forall t :: t in cancelled ==> t < |requests|) &&
      pending !! cancelled &&
      (phase == Mounted ==> props.page.Some?) &&
      (phase == Created ==>
         requests == [] && cancelled == {} && textItems == NotLoaded &&
         successCalls == [] && errorCalls == []) &&
      (phase == Unmounted ==> runningTask.None? || runningTask.value !in pending)
    }

    /** Nothing about the tasks changed. */
    twostate predicate TasksUnchanged()
      reads this
    {
      requests == old(requests) && runningTask == old(runningTask) &&
      pending == old(pending) && cancelled == old(cancelled)
    }

    /** Neither the state nor the observer logs changed. */
    twostate predicate OutputsUnchanged()
      reads this
    {
      textItems == old(textItems) && successCalls == old(successCalls) && errorCalls == old(errorCalls)
    }

    constructor (initial: Props)
      ensures Valid()
      ensures props == initial && phase == Created && textItems == NotLoaded
      ensures runningTask == None && requests == [] && pending == {} && cancelled == {}
      ensures successCalls == [] && errorCalls == []
    {
      props := initial;
      phase := Created;
      textItems := NotLoaded;
      runningTask := None;
      requests := [];
      pending := {};
      cancelled := {};
      successCalls := [];
      errorCalls := [];
    }

    /**
     * Mounting: with no page the first render already throws, reading the
     * viewport of the missing page, before `componentDidMount` (whose own check
     * would throw too) is reached; otherwise `componentDidMount` starts one load.
     */
    method Mount() returns (thrown: bool)
      requires Valid() && phase == Created
      modifies this
      ensures Valid()
      ensures thrown <==> props.page.None?
      ensures props == old(props)
      ensures thrown ==> phase == Created && TasksUnchanged() && OutputsUnchanged()
      ensures !thrown ==>
                phase == Mounted && requests == [props.page.value] && runningTask == Some(0) &&
                pending == {0} && cancelled == {} && OutputsUnchanged()
    {
      thrown := props.page.None?;
      if !thrown {
        phase := Mounted;
        LoadTextItems();
      }
    }

    /**
     * An update with new props. With no page the render that precedes
     * `componentDidUpdate` throws, reading the viewport of the missing page, and
     * nothing changes. Otherwise `componentDidUpdate` starts a load only when the
     * previous page was present and differs from the new one. No task is
     * cancelled: the previous one stays pending and is merely forgotten by
     * `runningTask`.
     */
    method Update(newProps: Props) returns (thrown: bool)
      requires Valid() && phase == Mounted
      modifies this
      ensures Valid()
      ensures thrown <==> newProps.page.None?
      ensures phase == Mounted
      ensures thrown ==> props == old(props) && TasksUnchanged() && OutputsUnchanged()
      ensures !thrown ==> props == newProps && cancelled == old(cancelled) && old(pending) <= pending
      ensures var reload := old(props).page.Some? && newProps.page != old(props).page;
              (!thrown && !reload ==> TasksUnchanged() && OutputsUnchanged()) &&
              (!thrown && reload ==>
                 requests == old(requests) + [newProps.page.value] &&
                 runningTask == Some(|old(requests)|) &&
                 pending == old(pending) + {|old(requests)|} && OutputsUnchanged())
    {
      thrown := newProps.page.None?;
      if !thrown {
        var previous := props.page;
        props := newProps;
        if previous.Some? && props.page != previous {
          LoadTextItems();
        }
      }
    }

    /** `componentWillUnmount`: cancels the task `runningTask` records, if any, and nothing else. */
    method Unmount()
      requires Valid()
      modifies this
      ensures Valid()
      ensures phase == Unmounted && props == old(props) && OutputsUnchanged()
      ensures requests == old(requests) && runningTask == old(runningTask)
      ensures match runningTask
              case None => pending == old(pending) && cancelled == old(cancelled)
              case Some(t) => pending == old(pending) - {t} && cancelled == old(cancelled) + {t}
    {
      phase := Unmounted;
      match runningTask
      case None =>
      case Some(t) =>
        pending := pending - {t};
        cancelled := cancelled + {t};
    }

    /**
     * The synchronous part of `loadTextItems`: start the extraction on the
     * current page and record it in `runningTask`, overwriting the task recorded
     * before without cancelling it.
     */
    method LoadTextItems()
      requires Valid() && phase == Mounted
      modifies this
      ensures Valid()
      ensures props == old(props) && phase == Mounted && cancelled == old(cancelled)
      ensures requests == old(requests) + [props.page.value]
      ensures runningTask == Some(|old(requests)|)
      ensures pending == old(pending) + {|old(requests)|}
      ensures OutputsUnchanged()
    {
      var t := |requests|;
      requests := requests + [props.page.value];
      runningTask := Some(t);
      pending := pending + {t};
    }

    /**
     * Task `t` resolves with `items`. A task that is not pending (cancelled or
     * already settled) delivers nothing. Otherwise the items are stored and
     * `onLoadSuccess` runs; once the component is unmounted React drops the
     * state update together with its callback.
     */
    method Resolve(t: TaskId, items: seq<TextItem>)
      requires Valid()
      modifies this
      ensures Valid()
      ensures props == old(props) && phase == old(phase) && errorCalls == old(errorCalls)
      ensures requests == old(requests) && runningTask == old(runningTask) && cancelled == old(cancelled)
      ensures pending == old(pending) - {t}
      ensures old(t in pending) && phase == Mounted ==>
                textItems == Loaded(items) &&
                successCalls == old(successCalls) + (if props.hasSuccessObserver then [items] else [])
      ensures !(old(t in pending) && phase == Mounted) ==> OutputsUnchanged()
    {
      if t in pending {
        pending := pending - {t};
        if phase == Mounted {
          textItems := Loaded(items);
          OnLoadSuccess();
        }
      }
    }

    /**
     * Task `t` rejects with `e`. A task that is not pending delivers nothing.
     * Otherwise `onLoadError` runs: its state update is dropped once the
     * component is unmounted, but the error observer is still called.
     */
    method Reject(t: TaskId, e: TaskError)
      requires Valid()
      modifies this
      ensures Valid()
      ensures props == old(props) && phase == old(phase) && successCalls == old(successCalls)
      ensures requests == old(requests) && runningTask == old(runningTask) && cancelled == old(cancelled)
      ensures pending == old(pending) - {t}
      ensures old(t in pending) ==>
                textItems == (if phase == Mounted then Failed else old(textItems)) &&
                errorCalls == old(errorCalls) + (if props.hasErrorObserver then [e] else [])
      ensures !old(t in pending) ==> OutputsUnchanged()
    {
      if t in pending {
        pending := pending - {t};
        OnLoadError(e);
      }
    }

    /** `onLoadSuccess`: hands the stored items to `onGetTextSuccess`, if provided. */
    method OnLoadSuccess()
      requires Valid() && textItems.Loaded?
      modifies this`successCalls
      ensures Valid()
      ensures successCalls == old(successCalls) + (if props.hasSuccessObserver then [textItems.items] else [])
    {
      if props.hasSuccessObserver {
        successCalls := successCalls + [textItems.items];
      }
    }

    /**
     * `onLoadError`: marks the load failed (a state update dropped once
     * unmounted) and hands the error to `onGetTextError`, if provided.
     */
    method OnLoadError(e: TaskError)
      requires Valid() && phase != Created
      modifies this`textItems, this`errorCalls
      ensures Valid()
      ensures textItems == (if phase == Mounted then Failed else old(textItems))
      ensures errorCalls == old(errorCalls) + (if props.hasErrorObserver then [e] else [])
    {
      if phase == Mounted {
        textItems := Failed;
      }
      if props.hasErrorObserver {
        errorCalls := errorCalls + [e];
      }
    }

    /**
     * `renderTextItems`: nothing unless items are loaded; otherwise one
     * fragment per stored item, in order, placed under the viewport and scaled.
     */
    function RenderTextItems(vp: Viewport): (r: Option<seq<Fragment>>)
      reads this
      ensures r.None? <==> !textItems.Loaded?
      ensures r.Some? ==> r.value == Fragments(textItems.items, props.scale, vp)
    {
      match textItems
      case Loaded(items) => Some(Fragments(items, props.scale, vp))
      case _ => None
    }

    /**
     * The `rotate` getter: the container's rotation, which added to the page's
     * own rotation gives the rotation asked for in the props.
     */
    function Rotate(pageRotate: int): (r: int)
      reads this
      ensures r + pageRotate == props.rotate
    {
      props.rotate - pageRotate
    }
  }
}

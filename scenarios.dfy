/**
 * Clients of the text layer that replay event sequences and state what the
 * component ends up with, using nothing but the contracts of its methods.
 */
module TextLayerScenarios {
  import opened Wrappers
  import opened FragmentPosition
  import opened TextLayerComponent

  /** Mounting without a page throws and starts no load. */
  method MountWithoutPage(scale: real, rotate: int) returns (thrown: bool, loads: seq<PageId>)
    ensures thrown && loads == []
  {
    var layer := new TextLayer(Props(None, scale, rotate, true, true));
    thrown := layer.Mount();
    loads := layer.requests;
  }

  /** An update that passes the same page again starts no second load. */
  method SamePageUpdate(p: PageId, scale: real, rotate: int) returns (loads: seq<PageId>, running: Option<TaskId>)
    ensures loads == [p] && running == Some(0)
  {
    var layer := new TextLayer(Props(Some(p), scale, rotate, true, true));
    var thrown := layer.Mount();
    var updateThrew := layer.Update(Props(Some(p), scale * 2.0, rotate + 90, true, true));
    loads, running := layer.requests, layer.runningTask;
  }

  /**
   * Page A is replaced by page B before A's text arrives. B's load resolves
   * first, then A's: A's superseded task was never cancelled, so its items
   * overwrite B's and the success observer hears from both.
   */
  method SupersededTaskStillWrites(a: PageId, b: PageId, itemsA: seq<TextItem>, itemsB: seq<TextItem>)
    returns (final: LoadState, delivered: seq<seq<TextItem>>, loads: seq<PageId>)
    requires a != b
    ensures loads == [a, b]
    ensures final == Loaded(itemsA)
    ensures delivered == [itemsB, itemsA]
  {
    var layer := new TextLayer(Props(Some(a), 1.0, 0, true, true));
    var thrown := layer.Mount();
    var updateThrew := layer.Update(Props(Some(b), 1.0, 0, true, true));
    layer.Resolve(1, itemsB);
    layer.Resolve(0, itemsA);
    final, delivered, loads := layer.textItems, layer.successCalls, layer.requests;
  }

  /** Unmounting before the only load settles suppresses both its outcomes. */
  method UnmountBeforeSettling(p: PageId, items: seq<TextItem>, e: TaskError)
    returns (final: LoadState, delivered: seq<seq<TextItem>>, failures: seq<TaskError>)
    ensures final == NotLoaded && delivered == [] && failures == []
  {
    var layer := new TextLayer(Props(Some(p), 1.0, 0, true, true));
    var thrown := layer.Mount();
    layer.Unmount();
    layer.Resolve(0, items);
    layer.Reject(0, e);
    final, delivered, failures := layer.textItems, layer.successCalls, layer.errorCalls;
  }

  /**
   * Unmounting cancels only the task `runningTask` records: a superseded task
   * that rejects afterwards still reaches the error observer, though the
   * state no longer changes.
   */
  method LateErrorAfterUnmount(a: PageId, b: PageId, e: TaskError)
    returns (final: LoadState, failures: seq<TaskError>)
    requires a != b
    ensures final == NotLoaded && failures == [e]
  {
    var layer := new TextLayer(Props(Some(a), 1.0, 0, true, true));
    var thrown := layer.Mount();
    var updateThrew := layer.Update(Props(Some(b), 1.0, 0, true, true));
    layer.Unmount();
    layer.Reject(0, e);
    layer.Reject(1, e);
    final, failures := layer.textItems, layer.errorCalls;
  }

  /** A rejected load leaves the failed state, renders nothing, and calls the error observer once. */
  method RejectedLoad(p: PageId, e: TaskError, vp: Viewport)
    returns (final: LoadState, rendered: Option<seq<Fragment>>, failures: seq<TaskError>)
    ensures final == Failed && rendered == None && failures == [e]
  {
    var layer := new TextLayer(Props(Some(p), 1.0, 0, false, true));
    var thrown := layer.Mount();
    layer.Reject(0, e);
    layer.Reject(0, e);
    final, rendered, failures := layer.textItems, layer.RenderTextItems(vp), layer.errorCalls;
  }

  /** A load that resolves with no items still counts as loaded and renders an empty list, not nothing. */
  method EmptyLoad(p: PageId, vp: Viewport) returns (rendered: Option<seq<Fragment>>)
    ensures rendered == Some([])
  {
    var layer := new TextLayer(Props(Some(p), 1.0, 0, false, false));
    var thrown := layer.Mount();
    layer.Resolve(0, []);
    rendered := layer.RenderTextItems(vp);
  }

  /**
   * Replacing the page by no page throws in the render before the update
   * handler runs: no load starts, the state and props stay as they were, and
   * no observer is called.
   */
  method PageRemovedThrows(a: PageId)
    returns (thrown: bool, final: LoadState, delivered: seq<seq<TextItem>>, failures: seq<TaskError>,
             loads: seq<PageId>, page: Option<PageId>)
    ensures thrown && final == NotLoaded && delivered == [] && failures == []
    ensures loads == [a] && page == Some(a)
  {
    var layer := new TextLayer(Props(Some(a), 1.0, 0, true, true));
    var mountThrew := layer.Mount();
    thrown := layer.Update(Props(None, 1.0, 0, true, true));
    final, delivered, failures := layer.textItems, layer.successCalls, layer.errorCalls;
    loads, page := layer.requests, layer.props.page;
  }
}

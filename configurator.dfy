/** The 3D configurator view
    (react/components/organisms/ripe-configurator/ripe-configurator.js):
    frames named `view-position`, the configurator handle bound on mount,
    and the guarded frame change and resize. */
module Configurator {
  import opened Js
  import opened Text

  /** The engine's configurator handle as the component reads it: whether
      it is ready, its current view and position, and whether its element
      is displayed (its computed `display` is not `none`). */
  datatype Handle = Handle(ready: bool, view: string, position: string, displayed: bool)

  datatype ConfiguratorProps = ConfiguratorProps(frame: Option<string>, size: Option<int>)

  datatype ConfiguratorEffect =
    | BindConfigurator(view: JsValue<string>, position: JsValue<string>)
    | UnbindConfigurator
    | ChangeFrame(frame: Option<string>)
    | Resize(size: int)
    | OnUpdateFrame(frame: Option<string>)
    | OnLoading
    | OnLoaded

  /** The view passed to `bindConfigurator`: the first `-` segment of the
      frame, `null` without a frame. */
  function InitialView(frame: Option<string>): (r: JsValue<string>)
    ensures r.Null? <==> !TruthyString(frame)
    ensures r.Defined? <==> TruthyString(frame)
    ensures r.Defined? ==> '-' !in r.value && r.value <= frame.value
    ensures r.Defined? ==> r.value == frame.value || r.value + "-" <= frame.value
  {
    if TruthyString(frame) then
      SplitFirstIsPrefix(frame.value, '-');
      SplitFirstPiece(frame.value, '-');
      Defined(Split(frame.value, '-')[0])
    else Null
  }

  /** The position passed to `bindConfigurator`: the second `-` segment,
      `undefined` for a frame without `-`, `null` without a frame. */
  function InitialPosition(frame: Option<string>): (r: JsValue<string>)
    ensures r.Null? <==> !TruthyString(frame)
    ensures r.Undefined? <==> TruthyString(frame) && '-' !in frame.value
    ensures r.Defined? ==> '-' !in r.value
    ensures r.Defined? ==>
      var viewAndPosition := InitialView(frame).value + "-" + r.value;
      && viewAndPosition <= frame.value
      && (viewAndPosition == frame.value || viewAndPosition + "-" <= frame.value)
  {
    if TruthyString(frame) then
      var segments := Split(frame.value, '-');
      SplitManyIff(frame.value, '-');
      if |segments| >= 2 then
        SplitSecondPiece(frame.value, '-');
        Defined(segments[1])
      else Undefined
    else Null
  }

  /** The frame announced on `loaded`: `${view}-${position}`. */
  function ComposeFrame(view: string, position: string): string {
    view + "-" + position
  }

  /** A composed frame parses back into its view and position when neither
      holds a `-`. */
  lemma ComposeThenParse(view: string, position: string)
    requires '-' !in view && '-' !in position
    ensures InitialView(Some(ComposeFrame(view, position))) == Defined(view)
    ensures InitialPosition(Some(ComposeFrame(view, position))) == Defined(position)
  {
    SplitAfterSeparator(view, '-', position);
    SplitWithoutSeparator(position, '-');
    assert ComposeFrame(view, position) == view + ['-'] + position;
  }

  /** A frame with exactly one `-` is composed back from its view and position. */
  lemma ParseThenCompose(frame: string)
    requires |Split(frame, '-')| == 2
    ensures InitialView(Some(frame)).Defined? && InitialPosition(Some(frame)).Defined?
    ensures ComposeFrame(InitialView(Some(frame)).value, InitialPosition(Some(frame)).value) == frame
  {
    var segments := Split(frame, '-');
    JoinSplit(frame, '-');
    assert Join(segments, '-') == segments[0] + ['-'] + Join(segments[1..], '-');
    SplitManyIff(frame, '-');
  }

  class Configurator {
    var frameData: Option<string>
    var loading: bool
    /** `this.configurator`; `None` before mount and after unmount. */
    var configurator: Option<Handle>
    /** Engine calls and outward callbacks, oldest first. */
    var trace: seq<ConfiguratorEffect>

    /** `_elementDisplayed`: a configurator whose element is displayed. */
    predicate ElementDisplayed()
      reads this
    {
      configurator.Some? && configurator.value.displayed
    }

    constructor(props: ConfiguratorProps)
      ensures frameData == props.frame && loading && configurator.None? && trace == []
    {
      frameData, loading, configurator, trace := props.frame, true, None, [];
    }

    /** `componentDidMount` once the engine is set up: binds the configurator
      at the view and position of the current frame, then resizes it. */
    method Mount(props: ConfiguratorProps, handle: Handle)
      modifies this
      ensures configurator == Some(handle) && frameData == old(frameData) && loading == old(loading)
      ensures trace == old(trace) + [OnLoading, BindConfigurator(InitialView(old(frameData)), InitialPosition(old(frameData)))]
        + (if TruthyNumber(props.size) then [Resize(props.size.value)] else [])
    {
      trace := trace + [OnLoading];
      configurator := Some(handle);
      trace := trace + [BindConfigurator(InitialView(frameData), InitialPosition(frameData))];
      ResizeTo(props.size);
    }

    /** The `changed_frame` handler: records the frame and reports it,
      whether or not the element is displayed. */
    method OnChangedFrame(frame: string)
      modifies this
      ensures frameData == Some(frame) && loading == old(loading) && configurator == old(configurator)
      ensures trace == old(trace) + [OnUpdateFrame(Some(frame))]
    {
      frameData := Some(frame);
      trace := trace + [OnUpdateFrame(Some(frame))];
    }

    /** The `loaded` handler, bound once the configurator is: the frame
      composed from the configurator's view and position, loading over,
      then both callbacks. */
    method OnConfiguratorLoaded()
      requires configurator.Some?
      modifies this
      ensures var frame := ComposeFrame(old(configurator).value.view, old(configurator).value.position);
        frameData == Some(frame) && !loading && configurator == old(configurator)
        && trace == old(trace) + [OnUpdateFrame(Some(frame)), OnLoaded]
    {
      var frame := ComposeFrame(configurator.value.view, configurator.value.position);
      frameData, loading := Some(frame), false;
      trace := trace + [OnUpdateFrame(Some(frame)), OnLoaded];
    }

    /** `_changeFrame`: nothing without a ready configurator; otherwise one
      `changeFrame` and, once it resolved, `onUpdateFrame` only from a
      displayed element. `accepted` is whether the engine's promise resolves. */
    method ChangeFrameTo(value: Option<string>, accepted: bool)
      modifies this
      ensures frameData == old(frameData) && loading == old(loading) && configurator == old(configurator)
      ensures old(configurator).None? || !old(configurator).value.ready ==> trace == old(trace)
      ensures old(configurator).Some? && old(configurator).value.ready ==>
        trace == old(trace) + [ChangeFrame(value)]
          + (if accepted && old(ElementDisplayed()) then [OnUpdateFrame(value)] else [])
    {
      if configurator.None? || !configurator.value.ready {
        return;
      }
      trace := trace + [ChangeFrame(value)];
      if !accepted {
        return;
      }
      if ElementDisplayed() {
        trace := trace + [OnUpdateFrame(value)];
      }
    }

    /** `_resize`: nothing for a falsy size or without a configurator. */
    method ResizeTo(size: Option<int>)
      modifies this
      ensures frameData == old(frameData) && loading == old(loading) && configurator == old(configurator)
      ensures trace == old(trace) + (if TruthyNumber(size) && configurator.Some? then [Resize(size.value)] else [])
    {
      if !TruthyNumber(size) || configurator.None? {
        return;
      }
      trace := trace + [Resize(size.value)];
    }

    /** `componentDidUpdate`: a resize for a changed size, then a frame
      change for a changed frame. */
    method ComponentDidUpdate(previous: ConfiguratorProps, props: ConfiguratorProps, accepted: bool)
      modifies this
      ensures frameData == old(frameData) && loading == old(loading) && configurator == old(configurator)
      ensures trace == old(trace)
        + (if previous.size != props.size && TruthyNumber(props.size) && configurator.Some?
           then [Resize(props.size.value)] else [])
        + (if previous.frame != props.frame && configurator.Some? && configurator.value.ready
           then [ChangeFrame(props.frame)] + (if accepted && ElementDisplayed() then [OnUpdateFrame(props.frame)] else [])
           else [])
    {
      if previous.size != props.size {
        ResizeTo(props.size);
      }
      if previous.frame != props.frame {
        ChangeFrameTo(props.frame, accepted);
      }
    }

    /** `componentWillUnmount`: unbinds a bound configurator and drops it.
        `accepted` is whether `unbindConfigurator` resolves; when it rejects,
        the handle is kept, since the reset follows the `await`. */
    method Unmount(accepted: bool)
      modifies this
      ensures frameData == old(frameData) && loading == old(loading)
      ensures configurator == if old(configurator).Some? && !accepted then old(configurator) else None
      ensures trace == old(trace) + (if old(configurator).Some? then [UnbindConfigurator] else [])
    {
      if configurator.Some? {
        trace := trace + [UnbindConfigurator];
        if !accepted {
          return;
        }
      }
      configurator := None;
    }
  }
}

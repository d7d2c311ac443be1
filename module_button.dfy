/** One module's row in the click-GUI panel: a header that toggles the module
    or expands the row, and one settings widget per supported setting.

    The widgets themselves (check box, mode box, slider), the owning frame
    and the module are collaborators whose code is not part of this model:
    a widget is represented by its kind, its setting and its offset, and
    the pointer events the row forwards to it are appended to a delivery
    log; the frame and the module are small classes whose methods count
    their calls. */
module OldUi {
  import opened Wrappers

  // ---------------------------------------------------------------------
  // Settings and the widget factory
  // ---------------------------------------------------------------------

  /** The run-time class of a setting: the three the row knows, or another. */
  datatype SettingKind = BooleanKind | ModeKind | NumberKind | OtherKind

  datatype Setting = Setting(name: string, kind: SettingKind)

  datatype WidgetKind = CheckBox | ModeBox | Slider

  /** A widget built by the row: its kind, the setting it edits and its
      vertical offset below the row's top. */
  datatype Component = Component(kind: WidgetKind, setting: Setting, offset: int)

  /** The `instanceof` chain of the constructor (ModuleButton.java lines
      38-44): which widget a setting of this kind gets, if any. */
  function WidgetFor(kind: SettingKind): (w: Option<WidgetKind>)
    ensures w == Some(CheckBox) <==> kind == BooleanKind
    ensures w == Some(ModeBox) <==> kind == ModeKind
    ensures w == Some(Slider) <==> kind == NumberKind
    ensures w == None <==> kind == OtherKind
  {
    match kind
    case BooleanKind => Some(CheckBox)
    case ModeKind => Some(ModeBox)
    case NumberKind => Some(Slider)
    case OtherKind => None
  }

  predicate HasWidget(s: Setting) {
    WidgetFor(s.kind).Some?
  }

  /** The components the constructor has built after visiting the first
      `n` settings, the setting at index `i` placed at `rowHeight * (i + 1)`. */
  function Components(settings: seq<Setting>, n: nat, rowHeight: int): (cs: seq<Component>)
    requires n <= |settings|
    ensures |cs| <= n
    ensures forall k | 0 <= k < |cs| :: WidgetFor(cs[k].setting.kind) == Some(cs[k].kind)
  {
    if n == 0 then []
    else
      Components(settings, n - 1, rowHeight) +
        match WidgetFor(settings[n - 1].kind)
        case None => []
        case Some(w) => [Component(w, settings[n - 1], rowHeight * n)]
  }

  /** The indices, in increasing order, of those among the first `n`
      settings that get a widget. */
  function WidgetIndices(settings: seq<Setting>, n: nat): (idx: seq<nat>)
    requires n <= |settings|
    ensures forall k | 0 <= k < |idx| :: idx[k] < n && HasWidget(settings[idx[k]])
    ensures forall j, k | 0 <= j < k < |idx| :: idx[j] < idx[k]
  {
    if n == 0 then []
    else WidgetIndices(settings, n - 1) + (if HasWidget(settings[n - 1]) then [n - 1] else [])
  }

  /** Every supported setting among the first `n` has its index listed. */
  lemma {:induction false} WidgetIndicesComplete(settings: seq<Setting>, n: nat)
    requires n <= |settings|
    ensures forall i | 0 <= i < n :: HasWidget(settings[i]) <==> i in WidgetIndices(settings, n)
  {
    if n > 0 {
      WidgetIndicesComplete(settings, n - 1);
    }
  }

  /** The widget for the supported setting at index `i`. */
  function WidgetAt(settings: seq<Setting>, i: nat, rowHeight: int): Component
    requires i < |settings| && HasWidget(settings[i])
  {
    Component(WidgetFor(settings[i].kind).value, settings[i], rowHeight * (i + 1))
  }

  /** The k-th component is the widget of the k-th supported setting: one
      component per supported setting, in setting order, of the matching
      kind, at the offset of the setting's own index (so an unsupported
      setting leaves a gap of one row). */
  lemma {:induction false} ComponentsAt(settings: seq<Setting>, n: nat, rowHeight: int)
    requires n <= |settings|
    ensures |Components(settings, n, rowHeight)| == |WidgetIndices(settings, n)|
    ensures forall k | 0 <= k < |Components(settings, n, rowHeight)| ::
      Components(settings, n, rowHeight)[k] == WidgetAt(settings, WidgetIndices(settings, n)[k], rowHeight)
  {
    if n > 0 {
      ComponentsAt(settings, n - 1, rowHeight);
    }
  }

  /** When every setting is supported there is one component per setting,
      the i-th at offset `rowHeight * (i + 1)`. */
  lemma {:induction false} AllSupportedComponents(settings: seq<Setting>, n: nat, rowHeight: int)
    requires n <= |settings|
    requires forall i | 0 <= i < |settings| :: HasWidget(settings[i])
    ensures |Components(settings, n, rowHeight)| == n
    ensures forall i | 0 <= i < n ::
      Components(settings, n, rowHeight)[i].setting == settings[i] &&
      Components(settings, n, rowHeight)[i].offset == rowHeight * (i + 1)
  {
    if n > 0 {
      AllSupportedComponents(settings, n - 1, rowHeight);
    }
  }

  // ---------------------------------------------------------------------
  // The header's click behaviour, as a state transition
  // ---------------------------------------------------------------------

  /** What a click can change: the row's `extended` flag, the module's
      enabled flag, and how often the module was toggled and the frame was
      asked to lay its rows out again. */
  datatype RowState = RowState(extended: bool, enabled: bool, toggles: nat, relayouts: nat)

  /** The header part of `mouseClicked` (lines 64-71). */
  function ClickStep(s: RowState, hovered: bool, button: int): (r: RowState)
    ensures r.toggles >= s.toggles && r.relayouts >= s.relayouts
    ensures r.toggles + r.relayouts <= s.toggles + s.relayouts + 1
  {
    if hovered && button == 0 then s.(enabled := !s.enabled, toggles := s.toggles + 1)
    else if hovered && button == 1 then s.(extended := !s.extended, relayouts := s.relayouts + 1)
    else s
  }

  /** Only a hovered left click toggles the module (once); only a hovered
      right click flips `extended` and asks for one relayout; any other
      click changes nothing. */
  lemma ClickStepEffects(s: RowState, hovered: bool, button: int)
    ensures ClickStep(s, hovered, button).enabled != s.enabled <==> hovered && button == 0
    ensures ClickStep(s, hovered, button).toggles == s.toggles + (if hovered && button == 0 then 1 else 0)
    ensures ClickStep(s, hovered, button).extended != s.extended <==> hovered && button == 1
    ensures ClickStep(s, hovered, button).relayouts == s.relayouts + (if hovered && button == 1 then 1 else 0)
    ensures !(hovered && (button == 0 || button == 1)) ==> ClickStep(s, hovered, button) == s
  {
  }

  /** Two hovered right clicks restore `extended` and relayout twice. */
  lemma RightClickTwiceRestores(s: RowState)
    ensures ClickStep(ClickStep(s, true, 1), true, 1) == s.(relayouts := s.relayouts + 2)
  {
  }

  // ---------------------------------------------------------------------
  // Pointer events forwarded to the widgets
  // ---------------------------------------------------------------------

  datatype PointerEvent =
    | Clicked(mouseX: real, mouseY: real, button: int)
    | Released(mouseX: real, mouseY: real, button: int)
    | Rendered(pointerX: int, pointerY: int, delta: real)

  /** The event `event` handed to the component at index `component`. */
  datatype Delivery = Delivery(component: nat, event: PointerEvent)

  /** `event` handed to each of the first `count` components, in list order. */
  function Broadcast(count: nat, event: PointerEvent): seq<Delivery> {
    seq(count, (k: nat) => Delivery(k, event))
  }

  // ---------------------------------------------------------------------
  // Collaborators
  // ---------------------------------------------------------------------

  /** The panel frame that owns the rows: its geometry, and a count of
      `updateButtons` calls (whose body is not part of this model). */
  class Frame {
    var x: int
    var y: int
    var width: int
    /** The height of one row. */
    var height: int
    var updateCalls: nat

    constructor (x: int, y: int, width: int, height: int)
      ensures this.x == x && this.y == y && this.width == width && this.height == height
      ensures updateCalls == 0
    {
      this.x, this.y, this.width, this.height := x, y, width, height;
      updateCalls := 0;
    }

    /** `updateButtons()`: only its call is recorded. */
    method UpdateButtons()
      modifies this`updateCalls
      ensures updateCalls == old(updateCalls) + 1
    {
      updateCalls := updateCalls + 1;
    }
  }

  /** A feature module: its name, its settings in display order, its
      enabled flag and a count of `toggle` calls. */
  class Module {
    const name: string
    const settings: seq<Setting>
    var enabled: bool
    var toggleCalls: nat

    constructor (name: string, settings: seq<Setting>, enabled: bool)
      ensures this.name == name && this.settings == settings && this.enabled == enabled
      ensures toggleCalls == 0
    {
      this.name, this.settings, this.enabled := name, settings, enabled;
      toggleCalls := 0;
    }

    /** `toggle()`: flips the enabled flag. */
    method Toggle()
      modifies this`enabled, this`toggleCalls
      ensures enabled == !old(enabled) && toggleCalls == old(toggleCalls) + 1
    {
      enabled := !enabled;
      toggleCalls := toggleCalls + 1;
    }
  }

  // ---------------------------------------------------------------------
  // The row
  // ---------------------------------------------------------------------

  class ModuleButton {
    /** The module this row shows (`module` in the source). */
    var mod: Module
    var parent: Frame
    /** The row's vertical offset within the frame. */
    var offset: int
    var components: seq<Component>
    var extended: bool
    /** Every event forwarded to a component, in order. */
    var delivered: seq<Delivery>

    /** The constructor (lines 29-47): a collapsed row with one widget per
        supported setting, offsets advancing by one row per setting. */
    constructor (mod: Module, parent: Frame, offset: int)
      ensures this.mod == mod && this.parent == parent && this.offset == offset
      ensures !extended && delivered == []
      ensures components == Components(mod.settings, |mod.settings|, parent.height)
    {
      this.mod := mod;
      this.parent := parent;
      this.offset := offset;
      extended := false;
      delivered := [];
      var built: seq<Component> := [];
      var setOffset := parent.height;
      var i := 0;
      while i < |mod.settings|
        invariant 0 <= i <= |mod.settings|
        invariant setOffset == parent.height * (i + 1)
        invariant built == Components(mod.settings, i, parent.height)
      {
        var setting := mod.settings[i];
        match setting.kind {
          case BooleanKind =>
            built := built + [Component(CheckBox, setting, setOffset)];
          case ModeKind =>
            built := built + [Component(ModeBox, setting, setOffset)];
          case NumberKind =>
            built := built + [Component(Slider, setting, setOffset)];
          case OtherKind =>
        }
        setOffset := setOffset + parent.height;
        i := i + 1;
      }
      components := built;
    }

    /** `isHovered` (lines 84-86): the pointer lies strictly inside the
        header rectangle. */
    predicate IsHovered(mouseX: real, mouseY: real)
      reads this, parent
      ensures IsHovered(mouseX, mouseY) ==> parent.width > 0 && parent.height > 0
    {
      mouseX > parent.x as real && mouseX < (parent.x + parent.width) as real &&
      mouseY > (parent.y + offset) as real && mouseY < (parent.y + offset + parent.height) as real
    }

    /** The header rectangle is open: a point on its border is not hovered. */
    lemma BorderNotHovered(mouseX: real, mouseY: real)
      requires mouseX == parent.x as real || mouseX == (parent.x + parent.width) as real ||
               mouseY == (parent.y + offset) as real || mouseY == (parent.y + offset + parent.height) as real
      ensures !IsHovered(mouseX, mouseY)
    {
    }

    function State(): RowState
      reads this, mod, parent
    {
      RowState(extended, mod.enabled, mod.toggleCalls, parent.updateCalls)
    }

    /** Hands `event` to every component, in list order (the loops at
        lines 57-59, 73-75 and 79-81). */
    method Forward(event: PointerEvent)
      modifies this`delivered
      ensures delivered == old(delivered) + Broadcast(|components|, event)
    {
      var i := 0;
      while i < |components|
        invariant 0 <= i <= |components|
        invariant delivered == old(delivered) + Broadcast(i, event)
      {
        delivered := delivered + [Delivery(i, event)];
        i := i + 1;
      }
    }

    /** `render` (lines 49-61), without the header drawing: the components
        are rendered exactly when the row is extended. */
    method Render(mouseX: int, mouseY: int, delta: real)
      modifies this`delivered
      ensures delivered == old(delivered) + if extended then Broadcast(|components|, Rendered(mouseX, mouseY, delta)) else []
    {
      if extended {
        Forward(Rendered(mouseX, mouseY, delta));
      }
    }

    /** `mouseClicked` (lines 63-76): the header reacts as `ClickStep`
        says, then the click goes to every component, hovered or not,
        extended or not. */
    method MouseClicked(mouseX: real, mouseY: real, button: int)
      modifies this`extended, this`delivered, mod`enabled, mod`toggleCalls, parent`updateCalls
      ensures State() == ClickStep(old(State()), old(IsHovered(mouseX, mouseY)), button)
      ensures delivered == old(delivered) + Broadcast(|components|, Clicked(mouseX, mouseY, button))
    {
      if IsHovered(mouseX, mouseY) {
        if button == 0 {
          mod.Toggle();
        } else if button == 1 {
          extended := !extended;
          parent.UpdateButtons();
        }
      }
      Forward(Clicked(mouseX, mouseY, button));
    }

    /** `mouseReleased` (lines 78-82): the release goes to every component. */
    method MouseReleased(mouseX: real, mouseY: real, button: int)
      modifies this`delivered
      ensures delivered == old(delivered) + Broadcast(|components|, Released(mouseX, mouseY, button))
    {
      Forward(Released(mouseX, mouseY, button));
    }
  }

  /** Two right clicks on the header restore `extended` and ask the frame
      for exactly two relayouts, leaving the module alone. */
  method DoubleRightClick(row: ModuleButton, mouseX: real, mouseY: real)
    requires row.IsHovered(mouseX, mouseY)
    modifies row`extended, row`delivered, row.mod`enabled, row.mod`toggleCalls, row.parent`updateCalls
    ensures row.extended == old(row.extended)
    ensures row.parent.updateCalls == old(row.parent.updateCalls) + 2
    ensures row.mod.enabled == old(row.mod.enabled) && row.mod.toggleCalls == old(row.mod.toggleCalls)
    ensures row.delivered == old(row.delivered) + Broadcast(|row.components|, Clicked(mouseX, mouseY, 1))
                                                + Broadcast(|row.components|, Clicked(mouseX, mouseY, 1))
  {
    row.MouseClicked(mouseX, mouseY, 1);
    row.MouseClicked(mouseX, mouseY, 1);
  }
}

/**
 * Navigation state of src/lib/WindowManager.ts: the registered elements (the module-level
 * `elements` array), the element on screen (`curr`), the back stack of the window manager,
 * and the key-binding map of a `Component`.
 *
 * An element is known by its position in `elements`, which is how `show` tells two elements
 * apart (`scr == curr` compares objects); `ids[i]` is the `id` of element `i`. Blessed
 * rendering and the components' lifecycle hooks are not part of this model.
 */
module WindowManagement {
  import opened Wrappers

  /** The argument of `show`/`display`: an element id, or a position in `elements`. */
  datatype Target = ById(id: string) | ByIndex(index: int)

  /** The id of the main screen, which `escape` returns to. */
  const MainWindow: string := "main-window"

  /** `elements.find((s) => s.id == id)`: the first element with that id. */
  function FindById(ids: seq<string>, id: string): (r: Option<nat>)
    ensures r.Some? ==> r.value < |ids| && ids[r.value] == id
    ensures r.Some? ==> forall j :: 0 <= j < r.value ==> ids[j] != id
    ensures r.None? ==> forall j :: 0 <= j < |ids| ==> ids[j] != id
  {
    if ids == [] then None
    else if ids[0] == id then Some(0)
    else match FindById(ids[1..], id)
      case None => None
      case Some(i) => Some(i + 1)
  }

  /** The element `show` looks up: by id, or `elements[index]`, which is `undefined` out of range. */
  function Resolve(ids: seq<string>, target: Target): (r: Option<nat>)
    ensures r.Some? ==> r.value < |ids|
    ensures target.ByIndex? ==> (r.Some? <==> 0 <= target.index < |ids|)
    ensures target.ByIndex? && r.Some? ==> r.value == target.index
    ensures target.ById? ==> r == FindById(ids, target.id)
  {
    match target
    case ById(id) => FindById(ids, id)
    case ByIndex(i) => if 0 <= i < |ids| then Some(i as nat) else None
  }

  /** What `show(target)` returns and the element on screen afterwards. */
  datatype Shown = Shown(result: Option<string>, curr: Option<nat>)

  /**
   * `show(target)`: an element that is missing, or is the one on screen, gives `false` and
   * no change; any other becomes current and its id is returned.
   */
  function ShowStep(ids: seq<string>, curr: Option<nat>, target: Target): (r: Shown)
    ensures Resolve(ids, target).None? ==> r == Shown(None, curr)
    ensures Resolve(ids, target).Some? && Resolve(ids, target) == curr ==> r == Shown(None, curr)
    ensures Resolve(ids, target).Some? && Resolve(ids, target) != curr ==>
      r == Shown(Some(ids[Resolve(ids, target).value]), Resolve(ids, target))
    ensures r.result.Some? <==> Resolve(ids, target).Some? && Resolve(ids, target) != curr
  {
    match Resolve(ids, target)
    case None => Shown(None, curr)
    case Some(i) => if Some(i) == curr then Shown(None, curr) else Shown(Some(ids[i]), Some(i))
  }

  /** `display(target)`: the stack grows by the shown id exactly when `show` succeeded. */
  function DisplayStack(stack: seq<string>, shown: Shown): (r: seq<string>)
    ensures shown.result.Some? ==> r == stack + [shown.result.value]
    ensures shown.result.None? ==> r == stack
  {
    if shown.result.Some? then stack + [shown.result.value] else stack
  }

  /** What `goBack(exitOnEmptyStack)` does: the process exits, or `show` runs on the popped id or on index 0. */
  datatype Back = Exit | Show(target: Target)

  /** The step `goBack` takes for a stack: an empty stack shows element 0 or exits; otherwise the top is shown. */
  function BackTarget(stack: seq<string>, exitOnEmptyStack: bool): (r: Back)
    ensures stack == [] && exitOnEmptyStack ==> r == Exit
    ensures stack == [] && !exitOnEmptyStack ==> r == Show(ByIndex(0))
    ensures stack != [] && stack[|stack| - 1] != "" ==> r == Show(ById(stack[|stack| - 1]))
  {
    if stack == [] || stack[|stack| - 1] == "" then
      (if exitOnEmptyStack then Exit else Show(ByIndex(0)))
    else Show(ById(stack[|stack| - 1]))
  }

  /** `stack.pop()`: one entry fewer, or none on an empty stack. */
  function Pop(stack: seq<string>): (r: seq<string>)
    ensures stack == [] ==> r == []
    ensures stack != [] ==> r + [stack[|stack| - 1]] == stack
  {
    if stack == [] then [] else stack[..|stack| - 1]
  }

  /**
   * `display` immediately followed by `goBack` returns the stack to what it was, and since
   * the popped id is the element on screen, `show` refuses it and nothing else changes.
   */
  lemma DisplayThenGoBack(ids: seq<string>, curr: Option<nat>, stack: seq<string>, target: Target,
                          exitOnEmptyStack: bool)
    requires forall i :: 0 <= i < |ids| ==> ids[i] != ""
    requires forall i, j :: 0 <= i < j < |ids| ==> ids[i] != ids[j]
    requires ShowStep(ids, curr, target).result.Some?
    ensures var shown := ShowStep(ids, curr, target);
      var pushed := DisplayStack(stack, shown);
      Pop(pushed) == stack
      && BackTarget(pushed, exitOnEmptyStack) == Show(ById(shown.result.value))
      && ShowStep(ids, shown.curr, ById(shown.result.value)) == Shown(None, shown.curr)
  {
    var shown := ShowStep(ids, curr, target);
    var i := Resolve(ids, target).value;
    var f := FindById(ids, ids[i]);
    assert f.Some? && ids[f.value] == ids[i];
  }

  /** `escape`: `main-window` is shown unless it is already on screen; the stack is not touched. */
  function EscapeStep(ids: seq<string>, curr: Option<nat>): (r: Shown)
    ensures curr.Some? && curr.value < |ids| && ids[curr.value] == MainWindow ==> r == Shown(None, curr)
    ensures (curr.None? || (curr.value < |ids| && ids[curr.value] != MainWindow)) ==>
      r == ShowStep(ids, curr, ById(MainWindow))
  {
    if curr.Some? && curr.value < |ids| && ids[curr.value] == MainWindow then Shown(None, curr)
    else ShowStep(ids, curr, ById(MainWindow))
  }

  /** `el.id ||= uuid()`: an empty id is replaced by the fresh one, any other is kept. */
  function AssignedId(id: string, freshId: string): (r: string)
    ensures id != "" ==> r == id
    ensures id == "" ==> r == freshId
  {
    if id == "" then freshId else id
  }

  class WindowManager {
    /** The ids of the registered elements, in registration order. */
    var ids: seq<string>
    /** The position of the element on screen, if any. */
    var curr: Option<nat>
    var stack: seq<string>

    /** Every registered element has a non-empty id, `curr` is a registered element, and the stack holds ids. */
    ghost predicate Valid()
      reads this
    {
      (forall i :: 0 <= i < |ids| ==> ids[i] != "")
      && (curr.Some? ==> curr.value < |ids|)
      && (forall i :: 0 <= i < |stack| ==> stack[i] != "")
    }

    constructor()
      ensures Valid()
      ensures ids == [] && curr == None && stack == []
    {
      ids := [];
      curr := None;
      stack := [];
    }

    /** `register(element)`: `freshId` is the value `uuid()` gives. */
    method Register(id: string, freshId: string) returns (r: string)
      requires Valid() && freshId != ""
      modifies this
      ensures Valid()
      ensures r == AssignedId(id, freshId) && ids == old(ids) + [r]
      ensures curr == old(curr) && stack == old(stack)
    {
      r := if id == "" then freshId else id;
      ids := ids + [r];
    }

    /** `show(target)`: `None` is the `false` it returns. */
    method ShowTarget(target: Target) returns (r: Option<string>)
      requires Valid()
      modifies this
      ensures Valid()
      ensures Shown(r, curr) == ShowStep(old(ids), old(curr), target)
      ensures ids == old(ids) && stack == old(stack)
      ensures r.Some? ==> r.value != ""
    {
      var scr := Resolve(ids, target);
      if scr.None? {
        return None;
      }
      if scr == curr {
        return None;
      }
      curr := scr;
      r := Some(ids[scr.value]);
    }

    /** `display(target)`. */
    method Display(target: Target)
      requires Valid()
      modifies this
      ensures Valid()
      ensures var shown := ShowStep(old(ids), old(curr), target);
        curr == shown.curr && stack == DisplayStack(old(stack), shown)
      ensures ids == old(ids)
    {
      var screen := ShowTarget(target);
      if screen.Some? {
        stack := stack + [screen.value];
      }
    }

    /** `goBack(exitOnEmptyStack)`; `exited` is the call to `process.exit`. */
    method GoBack(exitOnEmptyStack: bool) returns (exited: bool)
      requires Valid()
      modifies this
      ensures Valid()
      ensures stack == Pop(old(stack)) && ids == old(ids)
      ensures var back := BackTarget(old(stack), exitOnEmptyStack);
        (back == Exit ==> exited && curr == old(curr))
        && (back.Show? ==> !exited && curr == ShowStep(old(ids), old(curr), back.target).curr)
    {
      var prev: Option<string> := None;
      if stack != [] {
        prev := Some(stack[|stack| - 1]);
        stack := stack[..|stack| - 1];
      }
      if prev.None? || prev.value == "" {
        if exitOnEmptyStack {
          return true;
        }
        var _ := ShowTarget(ByIndex(0));
      } else {
        var _ := ShowTarget(ById(prev.value));
      }
      exited := false;
    }

    /** The `escape` key handler. */
    method OnEscape()
      requires Valid()
      modifies this
      ensures Valid()
      ensures curr == EscapeStep(old(ids), old(curr)).curr
      ensures ids == old(ids) && stack == old(stack)
    {
      if curr.None? || ids[curr.value] != MainWindow {
        var _ := ShowTarget(ById(MainWindow));
      }
    }
  }

  /** A key handler, known by identity. */
  type Callback = nat

  /** `registerKeyBinding(keys, cb)`: every key maps to `cb`; other keys keep their handler. */
  function BindKeys(bindings: map<string, Callback>, keys: seq<string>, cb: Callback): (r: map<string, Callback>)
    ensures r.Keys == bindings.Keys + set k | k in keys
    ensures forall k :: k in keys ==> r[k] == cb
    ensures forall k :: k in bindings && k !in keys ==> r[k] == bindings[k]
    decreases |keys|
  {
    if keys == [] then bindings
    else BindKeys(bindings[keys[0] := cb], keys[1..], cb)
  }

  /** A later registration for a key overrides an earlier one; keys it does not name keep the earlier handler. */
  lemma LaterBindingWins(bindings: map<string, Callback>, first: seq<string>, cb1: Callback,
                         second: seq<string>, cb2: Callback, k: string)
    requires k in first
    ensures k in second ==> BindKeys(BindKeys(bindings, first, cb1), second, cb2)[k] == cb2
    ensures k !in second ==> BindKeys(BindKeys(bindings, first, cb1), second, cb2)[k] == cb1
  {
  }

  /** `Component`: its id and its `keyBindings` map. */
  class Component {
    var id: string
    var keyBindings: map<string, Callback>

    constructor()
      ensures id == "" && keyBindings == map[]
    {
      id := "";
      keyBindings := map[];
    }

    /** `registerKeyBinding(keys, cb)`; a single key is the one-element list. */
    method RegisterKeyBinding(keys: seq<string>, cb: Callback)
      modifies this
      ensures keyBindings == BindKeys(old(keyBindings), keys, cb) && id == old(id)
    {
      var i := 0;
      while i < |keys|
        invariant 0 <= i <= |keys|
        invariant BindKeys(keyBindings, keys[i..], cb) == BindKeys(old(keyBindings), keys, cb)
        invariant id == old(id)
      {
        assert keys[i..][1..] == keys[i + 1..];
        keyBindings := keyBindings[keys[i] := cb];
        i := i + 1;
      }
    }
  }
}

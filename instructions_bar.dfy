/**
 * `Instructions` (src/components/InstructionsBar.ts): named layers of commands, the layer
 * whose key handlers are installed on the screen, and the bar's text.
 *
 * The screen's key registry is a multiset of (key, handler) listeners: `window.key` adds
 * one, `window.unkey` removes one.
 */
module InstructionsBar {
  import opened Wrappers
  import opened Text
  import opened WindowManagement

  /** `Instruction`: the key, the label, and the handler. */
  datatype Instruction = Instruction(key: string, text: string, callback: Callback)

  /** The `commands` prop: one list of commands, or named layers. */
  datatype Commands = List(commands: seq<Instruction>) | Layers(layers: map<string, seq<Instruction>>)

  /** The error of `setLayer` with a layer that does not exist (`undefined.map`). */
  const UnknownLayer: string := "TypeError: Cannot read properties of undefined (reading 'map')"

  /** The constructor's normalisation: a list becomes the `default` layer, layers are kept as given. */
  function NormaliseLayers(commands: Commands): (r: map<string, seq<Instruction>>)
    ensures commands.List? ==> r == map["default" := commands.commands]
    ensures commands.Layers? ==> r == commands.layers
  {
    match commands
    case List(cmds) => map["default" := cmds]
    case Layers(layers) => layers
  }

  /** The listeners `window.key` installs for a layer. */
  function Listeners(cmds: seq<Instruction>): (r: multiset<(string, Callback)>)
    ensures |r| == |cmds|
    ensures forall k :: 0 <= k < |cmds| ==> (cmds[k].key, cmds[k].callback) in r
    decreases |cmds|
  {
    if cmds == [] then multiset{}
    else Listeners(cmds[..|cmds| - 1]) + multiset{(cmds[|cmds| - 1].key, cmds[|cmds| - 1].callback)}
  }

  /** One entry of the bar: `[key] text`. */
  function Entry(cmd: Instruction): string
  {
    "[" + cmd.key + "] " + cmd.text
  }

  /** The entries of a layer, in command order. */
  function Entries(cmds: seq<Instruction>): (r: seq<string>)
    ensures |r| == |cmds| && forall k :: 0 <= k < |cmds| ==> r[k] == Entry(cmds[k])
  {
    seq(|cmds|, k requires 0 <= k < |cmds| => Entry(cmds[k]))
  }

  /** The bar's text for a layer: the entries joined with tabs. */
  function Content(cmds: seq<Instruction>): string
  {
    Join(Entries(cmds), "\t")
  }

  /** When no key or label holds a tab, the bar's text splits back into one entry per command, in order. */
  lemma ContentEntries(cmds: seq<Instruction>)
    requires |cmds| >= 1
    requires forall k :: 0 <= k < |cmds| ==> '\t' !in cmds[k].key && '\t' !in cmds[k].text
    ensures Split(Content(cmds), "\t") == Entries(cmds)
  {
    var es := Entries(cmds);
    forall k | 0 <= k < |es|
      ensures '\t' !in es[k]
    {
      assert es[k] == "[" + cmds[k].key + "] " + cmds[k].text;
      assert '\t' !in "[" && '\t' !in "] ";
    }
    SplitJoin(es, '\t');
  }

  /** The outcome of `setLayer(layer)`: the listeners, the current layer, the bar text, and the error if any. */
  datatype LayerState = LayerState(listeners: multiset<(string, Callback)>, current: seq<Instruction>, content: string)

  /**
   * `setLayer(layer)`: the current layer's listeners are removed first; a known layer then
   * sets the text, installs its listeners and becomes current; an unknown one fails with
   * the old listeners already gone and the current layer and text unchanged.
   */
  function SetLayerStep(layers: map<string, seq<Instruction>>, s: LayerState, layer: string)
    : (r: (LayerState, Option<string>))
    ensures layer !in layers ==>
      r == (s.(listeners := s.listeners - Listeners(s.current)), Some(UnknownLayer))
    ensures layer in layers ==>
      r.1 == None && r.0.current == layers[layer] && r.0.content == Content(layers[layer])
      && r.0.listeners == (s.listeners - Listeners(s.current)) + Listeners(layers[layer])
  {
    var cleared := s.listeners - Listeners(s.current);
    if layer !in layers then (s.(listeners := cleared), Some(UnknownLayer))
    else
      var cmds := layers[layer];
      (LayerState(cleared + Listeners(cmds), cmds, Content(cmds)), None)
  }

  /**
   * Switching layers does not accumulate handlers: when the current layer's listeners are
   * installed, two successive switches leave the other listeners plus the last layer's.
   */
  lemma SwitchLayersNoAccumulation(layers: map<string, seq<Instruction>>, s: LayerState, a: string, b: string)
    requires Listeners(s.current) <= s.listeners
    requires a in layers && b in layers
    ensures var s1 := SetLayerStep(layers, s, a).0;
      var s2 := SetLayerStep(layers, s1, b).0;
      s2.listeners == (s.listeners - Listeners(s.current)) + Listeners(layers[b])
      && s2.current == layers[b]
  {
    var base := s.listeners - Listeners(s.current);
    assert (base + Listeners(layers[a])) - Listeners(layers[a]) == base;
  }

  /** `onComponentUnmount()`: the current layer's listeners are removed, but it stays current. */
  function UnmountStep(s: LayerState): (r: LayerState)
    ensures r.current == s.current && r.content == s.content
    ensures Listeners(s.current) <= s.listeners ==> r.listeners + Listeners(s.current) == s.listeners
  {
    s.(listeners := s.listeners - Listeners(s.current))
  }

  /** Removing listeners one after another removes them all. */
  lemma RemoveOneMore(m: multiset<(string, Callback)>, removed: multiset<(string, Callback)>, x: (string, Callback))
    ensures m - removed - multiset{x} == m - (removed + multiset{x})
  {
  }

  /** The blessed screen's key registry. */
  class Screen {
    var listeners: multiset<(string, Callback)>

    constructor()
      ensures listeners == multiset{}
    {
      listeners := multiset{};
    }

    /** `window.key(key, cb)`. */
    method Key(key: string, cb: Callback)
      modifies this
      ensures listeners == old(listeners) + multiset{(key, cb)}
    {
      listeners := listeners + multiset{(key, cb)};
    }

    /** `window.unkey(key, cb)`. */
    method Unkey(key: string, cb: Callback)
      modifies this
      ensures listeners == old(listeners) - multiset{(key, cb)}
    {
      listeners := listeners - multiset{(key, cb)};
    }
  }

  class Instructions {
    const screen: Screen
    const layers: map<string, seq<Instruction>>
    var currentLayer: seq<Instruction>
    var content: string

    /** The constructor: layers normalised, no current layer, no text. */
    constructor(screen: Screen, commands: Commands)
      ensures this.screen == screen && layers == NormaliseLayers(commands)
      ensures currentLayer == [] && content == ""
    {
      this.screen := screen;
      layers := NormaliseLayers(commands);
      currentLayer := [];
      content := "";
    }

    /** The bar and its screen's listeners as one value. */
    ghost function State(): LayerState
      reads this, screen
    {
      LayerState(screen.listeners, currentLayer, content)
    }

    /** `deregisterCurrentKeyBinds()`. */
    method DeregisterCurrentKeyBinds()
      modifies screen
      ensures screen.listeners == old(screen.listeners) - Listeners(currentLayer)
    {
      var commands := currentLayer;
      var i := 0;
      while i < |commands|
        invariant 0 <= i <= |commands|
        invariant screen.listeners == old(screen.listeners) - Listeners(commands[..i])
      {
        assert commands[..i + 1][..i] == commands[..i];
        RemoveOneMore(old(screen.listeners), Listeners(commands[..i]), (commands[i].key, commands[i].callback));
        screen.Unkey(commands[i].key, commands[i].callback);
        i := i + 1;
      }
      assert commands[..|commands|] == commands;
    }

    /** The loop of `setLayer` that installs a layer's handlers with `window.key`. */
    method InstallKeyBinds(commands: seq<Instruction>)
      modifies screen
      ensures screen.listeners == old(screen.listeners) + Listeners(commands)
    {
      var i := 0;
      while i < |commands|
        invariant 0 <= i <= |commands|
        invariant screen.listeners == old(screen.listeners) + Listeners(commands[..i])
      {
        assert commands[..i + 1][..i] == commands[..i];
        screen.Key(commands[i].key, commands[i].callback);
        i := i + 1;
      }
      assert commands[..|commands|] == commands;
    }

    /** `setLayer(layer)`; `error` is the `TypeError` of an unknown layer. */
    method SetLayer(layer: string) returns (error: Option<string>)
      modifies this, screen
      ensures layer !in layers ==>
        error == Some(UnknownLayer) && currentLayer == old(currentLayer) && content == old(content)
        && screen.listeners == old(screen.listeners) - Listeners(old(currentLayer))
      ensures layer in layers ==>
        error == None && currentLayer == layers[layer] && content == Content(layers[layer])
        && screen.listeners == (old(screen.listeners) - Listeners(old(currentLayer))) + Listeners(layers[layer])
    {
      DeregisterCurrentKeyBinds();
      if layer !in layers {
        return Some(UnknownLayer);
      }
      var commands := layers[layer];
      content := Content(commands);
      InstallKeyBinds(commands);
      currentLayer := commands;
      error := None;
    }

    /** `onComponentRegister()`: installs the `default` layer. */
    method OnComponentRegister() returns (error: Option<string>)
      modifies this, screen
      ensures (State(), error) == SetLayerStep(layers, old(State()), "default")
    {
      error := SetLayer("default");
    }

    /** `onComponentUnmount()`. */
    method OnComponentUnmount()
      modifies screen
      ensures State() == UnmountStep(old(State()))
    {
      DeregisterCurrentKeyBinds();
    }
  }
}

/** The animation modes of ClutterAlpha: the built-in table that maps each
    ClutterAnimationMode to its progress function, the process-wide registry
    of user progress functions, and the per-object state (`mode`, `closure`,
    `timeline`) that clutter_alpha_set_mode, clutter_alpha_set_closure,
    clutter_alpha_set_func and clutter_alpha_set_timeline update.

    Objects the C code only passes around by pointer (timelines, closures
    created by the caller, user data) are identified by a number; NULL is
    `None` or, for user data, 0. */
module AlphaModes {
  import opened Base

  /** CLUTTER_CUSTOM_MODE: the mode of an alpha driven by its own closure. */
  const CUSTOM_MODE: nat := 0
  /** CLUTTER_ANIMATION_LAST: one past the built-in modes; never a valid mode. */
  const ANIMATION_LAST: nat := 12
  /** A NULL user-data pointer. */
  const NULL_DATA: nat := 0

  /** The C functions a closure can call. The built-in ones are those the
      mode table names; user functions are told apart by a number. */
  datatype ProgressFunc =
    | RampIncFunc | SineInFunc | SineOutFunc | SineInOutFunc
    | EaseInFunc | EaseOutFunc | EaseInOutFunc
    | ExpInFunc | ExpOutFunc | ExpInOutFunc
    | SmoothstepIncFunc
    | UserFunc(id: nat)

  /** A GClosure: either one made by g_cclosure_new around a C function and
      its user data (clutter_alpha_set_func), or one the caller built. */
  datatype Closure = CClosure(func: ProgressFunc, data: nat) | CallerClosure(id: nat)

  /** One row of the `animation_modes` table. */
  datatype ModeEntry = ModeEntry(mode: nat, func: Option<ProgressFunc>)

  /** An entry of the registry; `closure_set` tells which of the two it is. */
  datatype AlphaData = FuncData(func: ProgressFunc, data: nat) | ClosureData(closure: Closure)

  /** The properties whose change g_object_notify announces. */
  datatype Property = TimelineProperty | ModeProperty

  type Timeline = nat

  /** The `animation_modes` table, indexed by mode. */
  const ANIMATION_MODES: seq<ModeEntry> := [
    ModeEntry(0, None),
    ModeEntry(1, Some(RampIncFunc)),
    ModeEntry(2, Some(SineInFunc)),
    ModeEntry(3, Some(SineOutFunc)),
    ModeEntry(4, Some(SineInOutFunc)),
    ModeEntry(5, Some(EaseInFunc)),
    ModeEntry(6, Some(EaseOutFunc)),
    ModeEntry(7, Some(EaseInOutFunc)),
    ModeEntry(8, Some(ExpInFunc)),
    ModeEntry(9, Some(ExpOutFunc)),
    ModeEntry(10, Some(ExpInOutFunc)),
    ModeEntry(11, Some(SmoothstepIncFunc)),
    ModeEntry(12, None)
  ]

  /** The row clutter_alpha_set_mode looks up for a built-in mode. The row
      carries its own mode, as the sanity assertion of set_mode demands,
      and only the custom mode has no function. */
  function BuiltinEntry(mode: nat): (r: ModeEntry)
    requires mode < ANIMATION_LAST
    ensures r.mode == mode
    ensures r.func.None? <==> mode == CUSTOM_MODE
    ensures r.func.Some? ==> !r.func.value.UserFunc?
  {
    ANIMATION_MODES[mode]
  }

  /** The closure a registry entry installs when its id is selected. */
  function EntryClosure(d: AlphaData): Closure {
    match d
    case FuncData(f, data) => CClosure(f, data)
    case ClosureData(c) => c
  }

  /** The logical id that registering the `k`-th user entry (counting from
      1) returns. */
  function RegisteredId(k: nat): (id: nat)
    requires 1 <= k
    ensures id > ANIMATION_LAST
    ensures id - ANIMATION_LAST - 1 == k - 1
  {
    k + ANIMATION_LAST
  }

  /** What clutter_alpha_set_mode decides for `mode`, given the registry
      `entries` (an empty registry is the NULL `clutter_alphas`). */
  datatype ModeResolution =
    | Rejected                                // mode == CLUTTER_ANIMATION_LAST
    | NoAlphaFunctions                        // user id, nothing registered
    | Unregistered                            // user id beyond the registry
    | Builtin(func: Option<ProgressFunc>)     // mode < CLUTTER_ANIMATION_LAST
    | Registered(data: AlphaData)             // user id of a registered entry

  /** The decision of clutter_alpha_set_mode, with the bounds check on the
      user index that the source leaves out (see ResolveModeAsWritten). */
  function ResolveMode(entries: seq<AlphaData>, mode: nat): (r: ModeResolution)
    ensures r.Rejected? <==> mode == ANIMATION_LAST
    ensures r.Builtin? <==> mode < ANIMATION_LAST
    ensures r.Builtin? ==> r.func == BuiltinEntry(mode).func
    ensures r.NoAlphaFunctions? <==> mode > ANIMATION_LAST && entries == []
    ensures r.Registered? <==> ANIMATION_LAST < mode <= ANIMATION_LAST + |entries|
    ensures r.Unregistered? <==> entries != [] && mode > ANIMATION_LAST + |entries|
  {
    if mode == ANIMATION_LAST then Rejected
    else if mode < ANIMATION_LAST then Builtin(BuiltinEntry(mode).func)
    else if entries == [] then NoAlphaFunctions
    else if mode - ANIMATION_LAST - 1 >= |entries| then Unregistered
    else Registered(entries[mode - ANIMATION_LAST - 1])
  }

  /** Round trip: the id returned for an entry appended to the registry
      selects exactly that entry. */
  lemma {:induction false} RegisteredIdSelectsEntry(entries: seq<AlphaData>, d: AlphaData)
    ensures ResolveMode(entries + [d], RegisteredId(|entries + [d]|)) == Registered(d)
  {
    var id := RegisteredId(|entries + [d]|);
    assert id - ANIMATION_LAST - 1 == |entries|;
    assert (entries + [d])[|entries|] == d;
  }

  /** Registering another entry changes the meaning of no id that was
      already valid, nor of any built-in mode. */
  lemma {:induction false} RegistrationKeepsIds(entries: seq<AlphaData>, d: AlphaData, mode: nat)
    requires !ResolveMode(entries, mode).Unregistered?
    requires !ResolveMode(entries, mode).NoAlphaFunctions?
    ensures ResolveMode(entries + [d], mode) == ResolveMode(entries, mode)
  {
    if ANIMATION_LAST < mode {
      var k := mode - ANIMATION_LAST - 1;
      assert k < |entries|;
      assert (entries + [d])[k] == entries[k];
    }
  }

  /** Every id handed out so far selects its own entry, and ids above the
      last one handed out select nothing. */
  lemma {:induction false} RegistryIdsAreExact(entries: seq<AlphaData>, mode: nat)
    requires mode > ANIMATION_LAST
    ensures (exists k :: 1 <= k <= |entries| && RegisteredId(k) == mode)
              <==> ResolveMode(entries, mode).Registered?
    ensures forall k :: 1 <= k <= |entries| ==>
              ResolveMode(entries, RegisteredId(k)) == Registered(entries[k - 1])
  {
    if ResolveMode(entries, mode).Registered? {
      var k := mode - ANIMATION_LAST;
      assert RegisteredId(k) == mode;
    }
  }

  /** clutter_alpha_set_mode as written indexes the registry with
      `mode - CLUTTER_ANIMATION_LAST - 1` without comparing it to the
      registry's length. */
  datatype AsWrittenResolution = Resolved(resolution: ModeResolution) | OutOfBoundsRead(index: nat)

  function ResolveModeAsWritten(entries: seq<AlphaData>, mode: nat): (r: AsWrittenResolution)
    ensures r.OutOfBoundsRead? <==> entries != [] && mode > ANIMATION_LAST + |entries|
    ensures r.OutOfBoundsRead? ==> r.index >= |entries|
    ensures r.Resolved? ==> r.resolution == ResolveMode(entries, mode)
  {
    if mode == ANIMATION_LAST then Resolved(Rejected)
    else if mode < ANIMATION_LAST then Resolved(Builtin(BuiltinEntry(mode).func))
    else if entries == [] then Resolved(NoAlphaFunctions)
    else if mode - ANIMATION_LAST - 1 < |entries| then
      Resolved(Registered(entries[mode - ANIMATION_LAST - 1]))
    else OutOfBoundsRead(mode - ANIMATION_LAST - 1)
  }

  /** With one function registered (id 13), asking for id 14 reads element 1
      of a one-element array; the intended outcome is the "No alpha function
      registered" warning and no change. */
  lemma SetModeBeyondRegistry(f: ProgressFunc)
    ensures ResolveModeAsWritten([FuncData(f, NULL_DATA)], ANIMATION_LAST + 2) == OutOfBoundsRead(1)
    ensures ResolveMode([FuncData(f, NULL_DATA)], ANIMATION_LAST + 2) == Unregistered
  {
  }

  /** The global `clutter_alphas` array; empty stands for NULL, which the
      source only replaces by an array when it adds the first entry. */
  class AlphaRegistry {
    var entries: seq<AlphaData>

    constructor ()
      ensures entries == []
    {
      entries := [];
    }

    /** clutter_alpha_register_func: a NULL function is refused with id 0. */
    method RegisterFunc(func: Option<ProgressFunc>, data: nat) returns (id: nat)
      modifies this
      ensures func.None? ==> id == 0 && entries == old(entries)
      ensures func.Some? ==> entries == old(entries) + [FuncData(func.value, data)]
      ensures func.Some? ==> id == RegisteredId(|entries|) && id > ANIMATION_LAST
    {
      if func.None? {
        return 0;
      }
      entries := entries + [FuncData(func.value, data)];
      id := |entries| + ANIMATION_LAST;
    }

    /** clutter_alpha_register_closure: a NULL closure is refused with id 0. */
    method RegisterClosure(closure: Option<Closure>) returns (id: nat)
      modifies this
      ensures closure.None? ==> id == 0 && entries == old(entries)
      ensures closure.Some? ==> entries == old(entries) + [ClosureData(closure.value)]
      ensures closure.Some? ==> id == RegisteredId(|entries|) && id > ANIMATION_LAST
    {
      if closure.None? {
        return 0;
      }
      entries := entries + [ClosureData(closure.value)];
      id := |entries| + ANIMATION_LAST;
    }
  }

  /** A ClutterAlpha: the fields of ClutterAlphaPrivate that the mode and
      timeline setters change, and the notifications they emit. */
  class Alpha {
    var mode: nat
    var closure: Option<Closure>
    var timeline: Option<Timeline>
    /** The "notify" emissions so far, oldest first. */
    var notified: seq<Property>

    /** clutter_alpha_init: custom mode, no closure, no timeline. The
        construct-time `set_mode (0)` that g_object_new runs leaves the same
        state; its "mode" notification is not logged, so the log starts
        empty. */
    constructor ()
      ensures mode == CUSTOM_MODE && closure == None && timeline == None && notified == []
    {
      mode := CUSTOM_MODE;
      closure := None;
      timeline := None;
      notified := [];
    }

    /** clutter_alpha_set_closure: a NULL closure is refused; otherwise the
        closure replaces the old one and the mode becomes the custom mode. */
    method SetClosure(c: Option<Closure>)
      modifies this
      ensures c.None? ==> unchanged(this)
      ensures c.Some? ==> closure == c && mode == CUSTOM_MODE && timeline == old(timeline)
      ensures c.Some? ==> notified == old(notified) + [ModeProperty]
    {
      if c.None? {
        return;
      }
      closure := c;
      mode := CUSTOM_MODE;
      notified := notified + [ModeProperty];
    }

    /** clutter_alpha_set_func: wraps the function and its data in a new C
        closure and installs it with SetClosure. */
    method SetFunc(func: Option<ProgressFunc>, data: nat)
      modifies this
      ensures func.None? ==> unchanged(this)
      ensures func.Some? ==> closure == Some(CClosure(func.value, data))
      ensures func.Some? ==> mode == CUSTOM_MODE && timeline == old(timeline)
      ensures func.Some? ==> notified == old(notified) + [ModeProperty]
    {
      if func.None? {
        return;
      }
      SetClosure(Some(CClosure(func.value, data)));
    }

    /** clutter_alpha_set_timeline: binding the timeline already bound does
        nothing at all; any other timeline (or NULL) replaces it. */
    method SetTimeline(t: Option<Timeline>)
      modifies this
      ensures t == old(timeline) ==> unchanged(this)
      ensures t != old(timeline) ==> timeline == t && mode == old(mode) && closure == old(closure)
      ensures t != old(timeline) ==> notified == old(notified) + [TimelineProperty]
    {
      if timeline == t {
        return;
      }
      timeline := t;
      notified := notified + [TimelineProperty];
    }

    /** clutter_alpha_set_mode, with the registry bounds check of
        ResolveMode. A built-in mode installs its table function (the custom
        mode keeps the current closure); a registered id installs the
        entry's closure or function; both then record `m` as the mode.
        Every refusal leaves the object as it was. */
    method SetMode(registry: AlphaRegistry, m: nat)
      modifies this
      ensures var res := ResolveMode(registry.entries, m);
        (res.Rejected? || res.NoAlphaFunctions? || res.Unregistered?) ==> unchanged(this)
      ensures var res := ResolveMode(registry.entries, m);
        res.Builtin? ==>
          && mode == m && timeline == old(timeline)
          && closure == (if res.func.Some? then Some(CClosure(res.func.value, NULL_DATA)) else old(closure))
          && notified == old(notified) + (if res.func.Some? then [ModeProperty, ModeProperty] else [ModeProperty])
      ensures var res := ResolveMode(registry.entries, m);
        res.Registered? ==>
          && mode == m && timeline == old(timeline)
          && closure == Some(EntryClosure(res.data))
          && notified == old(notified) + [ModeProperty, ModeProperty]
    {
      if m == ANIMATION_LAST {
        return;
      }
      if m < ANIMATION_LAST {
        var entry := BuiltinEntry(m);
        if entry.func.Some? {
          SetFunc(entry.func, NULL_DATA);
        }
        mode := m;
      } else {
        if registry.entries == [] {
          return;
        }
        var realIndex := m - ANIMATION_LAST - 1;
        if realIndex >= |registry.entries| {
          return;
        }
        var alphaData := registry.entries[realIndex];
        match alphaData {
          case ClosureData(c) => SetClosure(Some(c));
          case FuncData(f, data) => SetFunc(Some(f), data);
        }
        mode := m;
      }
      notified := notified + [ModeProperty];
    }
  }

  /** The round trip through the two objects: registering a function and
      selecting the id it returns makes the alpha run that function with
      that data, in that id's mode. */
  method RegisterFuncThenSetMode(registry: AlphaRegistry, alpha: Alpha, f: ProgressFunc, data: nat)
    returns (id: nat)
    modifies registry, alpha
    ensures id > ANIMATION_LAST
    ensures registry.entries == old(registry.entries) + [FuncData(f, data)]
    ensures alpha.mode == id && alpha.closure == Some(CClosure(f, data))
    ensures alpha.timeline == old(alpha.timeline)
  {
    id := registry.RegisterFunc(Some(f), data);
    RegisteredIdSelectsEntry(old(registry.entries), FuncData(f, data));
    alpha.SetMode(registry, id);
  }
}

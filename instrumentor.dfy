// The Python instrumentation base (`genai_telemetry/instrumentation/base.py`):
// the instrument/uninstrument state machine every framework instrumentor
// inherits, and the `wrap_method`/`unwrap_method` helpers that swap an
// attribute of a class for a wrapper while remembering the original.

module Instrumentation {
  import opened Common

  /** What a subclass hook (`_instrument`/`_uninstrument`) does: return or raise. */
  datatype HookOutcome = Completes | Raises

  /** What one call returns and the `_is_instrumented` flag it leaves. */
  datatype Step = Step(ok: bool, instrumented: bool)

  /** `instrument()` from flag `was`: `installed` is what `_check_installed()`
      answers and `hook` how `_instrument()` ends. */
  function InstrumentStep(was: bool, installed: bool, hook: HookOutcome): (r: Step)
    ensures was ==> r == Step(true, true)
    ensures !was && !installed ==> r == Step(false, false)
    ensures !was && installed ==> r.ok == (hook == Completes)
    ensures !was ==> r.instrumented == r.ok
  {
    if was then Step(true, true)
    else if !installed then Step(false, false)
    else if hook == Completes then Step(true, true)
    else Step(false, false)
  }

  /** `uninstrument()` from flag `was`: `hook` is how `_uninstrument()` ends. */
  function UninstrumentStep(was: bool, hook: HookOutcome): (r: Step)
    ensures !was ==> r == Step(true, false)
    ensures was ==> r.ok == (hook == Completes)
    ensures r.instrumented == !r.ok
  {
    if !was then Step(true, false)
    else if hook == Completes then Step(true, false)
    else Step(false, true)
  }

  /** What each call does to the `_instrumented` flag: a successful
      instrument leaves it set, a successful uninstrument leaves it clear,
      and a failed call leaves it as it was. */
  lemma FailedCallsChangeNothing(was: bool, installed: bool, hook: HookOutcome)
    ensures !InstrumentStep(was, installed, hook).ok ==> InstrumentStep(was, installed, hook).instrumented == was
    ensures !UninstrumentStep(was, hook).ok ==> UninstrumentStep(was, hook).instrumented == was
    ensures InstrumentStep(was, installed, hook).ok ==> InstrumentStep(was, installed, hook).instrumented
    ensures UninstrumentStep(was, hook).ok ==> !UninstrumentStep(was, hook).instrumented
  {
  }

  /** A successful instrument followed by a successful uninstrument returns to
      the start, and a second instrument does nothing more. */
  lemma InstrumentRoundTrip(installed: bool, hook: HookOutcome, installed2: bool, hook2: HookOutcome)
    requires InstrumentStep(false, installed, hook).ok
    ensures InstrumentStep(InstrumentStep(false, installed, hook).instrumented, installed2, hook2) == Step(true, true)
    ensures UninstrumentStep(InstrumentStep(false, installed, hook).instrumented, Completes) == Step(true, false)
  {
  }

  /** An instrumentor instance: its `name` property, the name of its class
      (`type(i).__name__`) and the `_is_instrumented` flag. */
  class Instrumentor {
    const name: string
    const className: string
    var instrumented: bool

    constructor (name: string, className: string)
      ensures this.name == name && this.className == className
      ensures !instrumented
    {
      this.name := name;
      this.className := className;
      instrumented := false;
    }

    /** `instrument()`. */
    method Instrument(installed: bool, hook: HookOutcome) returns (ok: bool)
      modifies this
      ensures Step(ok, instrumented) == InstrumentStep(old(instrumented), installed, hook)
    {
      if instrumented {
        return true;
      }
      if !installed {
        return false;
      }
      if hook == Raises {
        return false;
      }
      instrumented := true;
      ok := true;
    }

    /** `uninstrument()`. */
    method Uninstrument(hook: HookOutcome) returns (ok: bool)
      modifies this
      ensures Step(ok, instrumented) == UninstrumentStep(old(instrumented), hook)
    {
      if !instrumented {
        return true;
      }
      if hook == Raises {
        return false;
      }
      instrumented := false;
      ok := true;
    }
  }

  // ---------------------------------------------------------------------
  // wrap_method / unwrap_method
  // ---------------------------------------------------------------------

  /** An attribute value: some original callable, or what `wrapper_func`
      returned when given the value it wraps. */
  datatype AttrValue = Plain(id: nat) | Wrapper(wrapperId: nat, original: AttrValue)

  /** A patch target (a class or module): its `__module__`, its `__name__`
      when it has one, the name of its type, and its attributes. */
  class Target {
    const moduleName: string
    const ownName: Option<string>
    const typeName: string
    var attrs: map<string, AttrValue>

    constructor (moduleName: string, ownName: Option<string>, typeName: string, attrs: map<string, AttrValue>)
      ensures this.moduleName == moduleName && this.ownName == ownName && this.typeName == typeName
      ensures this.attrs == attrs
    {
      this.moduleName := moduleName;
      this.ownName := ownName;
      this.typeName := typeName;
      this.attrs := attrs;
    }
  }

  /** The `original_store` dictionary the caller passes in. */
  class OriginalStore {
    var entries: map<string, AttrValue>

    constructor ()
      ensures entries == map[]
    {
      entries := map[];
    }
  }

  /** The store key `"<module>.<name>.<method>"`, falling back to the type
      name when the target has no `__name__`. */
  function StoreKey(moduleName: string, ownName: Option<string>, typeName: string, methodName: string): string
  {
    moduleName + "." + OrElse(ownName, typeName) + "." + methodName
  }

  /** Two methods of one target never share a store key. */
  lemma StoreKeyInjective(moduleName: string, ownName: Option<string>, typeName: string, m1: string, m2: string)
    requires StoreKey(moduleName, ownName, typeName, m1) == StoreKey(moduleName, ownName, typeName, m2)
    ensures m1 == m2
  {
    var prefix := moduleName + "." + OrElse(ownName, typeName) + ".";
    assert StoreKey(moduleName, ownName, typeName, m1) == prefix + m1;
    assert StoreKey(moduleName, ownName, typeName, m2) == prefix + m2;
    assert m1 == (prefix + m1)[|prefix|..];
    assert m2 == (prefix + m2)[|prefix|..];
  }

  /** The patched state: the target's attributes and the original store. */
  datatype Patch = Patch(attrs: map<string, AttrValue>, store: map<string, AttrValue>)

  datatype Outcome = Outcome(ok: bool, after: Patch)

  /** `wrap_method` on a state: a missing attribute is refused; otherwise the
      original is saved under `key` and the attribute becomes the wrapper. */
  function Wrap(key: string, methodName: string, wrapperId: nat, p: Patch): (r: Outcome)
    ensures r.ok <==> methodName in p.attrs
    ensures !r.ok ==> r.after == p
    ensures r.ok ==> key in r.after.store && r.after.store[key] == p.attrs[methodName]
    ensures r.ok ==> methodName in r.after.attrs && r.after.attrs[methodName].Wrapper?
  {
    if methodName !in p.attrs then Outcome(false, p)
    else
      var original := p.attrs[methodName];
      Outcome(true, Patch(p.attrs[methodName := Wrapper(wrapperId, original)], p.store[key := original]))
  }

  /** `unwrap_method` on a state: with no saved original nothing changes;
      otherwise the saved value is put back and its key deleted. */
  function Unwrap(key: string, methodName: string, p: Patch): (r: Outcome)
    ensures r.ok <==> key in p.store
    ensures !r.ok ==> r.after == p
    ensures r.ok ==> key !in r.after.store && methodName in r.after.attrs
    ensures r.ok ==> r.after.attrs[methodName] == p.store[key]
  {
    if key !in p.store then Outcome(false, p)
    else Outcome(true, Patch(p.attrs[methodName := p.store[key]], p.store - {key}))
  }

  /** Wrapping then unwrapping an existing attribute restores the target
      exactly and leaves the store without the key. */
  lemma WrapThenUnwrapRestores(key: string, methodName: string, wrapperId: nat, p: Patch)
    requires methodName in p.attrs
    ensures Unwrap(key, methodName, Wrap(key, methodName, wrapperId, p).after).ok
    ensures Unwrap(key, methodName, Wrap(key, methodName, wrapperId, p).after).after
         == Patch(p.attrs, p.store - {key})
  {
    var w := Wrap(key, methodName, wrapperId, p).after;
    var u := Unwrap(key, methodName, w).after;
    assert u.attrs == p.attrs[methodName := p.attrs[methodName]];
    assert u.attrs == p.attrs;
    assert u.store == p.store - {key};
  }

  /** Wrapping twice overwrites the saved original with the first wrapper, so
      one unwrap leaves the first wrapper in place: this is why `instrument`
      refuses to run twice. */
  lemma DoubleWrapKeepsFirstWrapper(key: string, methodName: string, w1: nat, w2: nat, p: Patch)
    requires methodName in p.attrs
    ensures Unwrap(key, methodName, Wrap(key, methodName, w2, Wrap(key, methodName, w1, p).after).after).after.attrs[methodName]
         == Wrapper(w1, p.attrs[methodName])
    ensures Unwrap(key, methodName, Wrap(key, methodName, w2, Wrap(key, methodName, w1, p).after).after).after.attrs[methodName]
         != p.attrs[methodName]
  {
    var once := Wrap(key, methodName, w1, p).after;
    assert once.attrs[methodName] == Wrapper(w1, p.attrs[methodName]);
    var twice := Wrap(key, methodName, w2, once).after;
    assert twice.store[key] == Wrapper(w1, p.attrs[methodName]);
  }

  /** `wrap_method(obj, method_name, wrapper_func, original_store)`. */
  method WrapMethod(obj: Target, methodName: string, wrapperId: nat, store: OriginalStore) returns (ok: bool)
    modifies obj, store
    ensures Outcome(ok, Patch(obj.attrs, store.entries))
         == Wrap(StoreKey(obj.moduleName, obj.ownName, obj.typeName, methodName), methodName, wrapperId,
                 Patch(old(obj.attrs), old(store.entries)))
  {
    if methodName !in obj.attrs {
      return false;
    }
    var key := StoreKey(obj.moduleName, obj.ownName, obj.typeName, methodName);
    var original := obj.attrs[methodName];
    store.entries := store.entries[key := original];
    obj.attrs := obj.attrs[methodName := Wrapper(wrapperId, original)];
    ok := true;
  }

  /** `unwrap_method(obj, method_name, original_store)`. */
  method UnwrapMethod(obj: Target, methodName: string, store: OriginalStore) returns (ok: bool)
    modifies obj, store
    ensures Outcome(ok, Patch(obj.attrs, store.entries))
         == Unwrap(StoreKey(obj.moduleName, obj.ownName, obj.typeName, methodName), methodName,
                   Patch(old(obj.attrs), old(store.entries)))
  {
    var key := StoreKey(obj.moduleName, obj.ownName, obj.typeName, methodName);
    if key !in store.entries {
      return false;
    }
    obj.attrs := obj.attrs[methodName := store.entries[key]];
    store.entries := store.entries - {key};
    ok := true;
  }
}

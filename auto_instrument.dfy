// Automatic instrumentation (`genai_telemetry/instrumentation/auto.py`): the
// registry of framework instrumentors, the list of active instrumentors,
// `auto_instrument`, `uninstrument`, `get_instrumented_frameworks` and
// `is_instrumented`.

module AutoInstrumentation {
  import opened Common
  import opened Instrumentation

  /** The frameworks the registry knows how to import. */
  datatype Framework = OpenAI | Anthropic | LangChain | LlamaIndex | Google

  /** The registry key of a framework. */
  function Key(f: Framework): string
  {
    match f
    case OpenAI => "openai"
    case Anthropic => "anthropic"
    case LangChain => "langchain"
    case LlamaIndex => "llamaindex"
    case Google => "google"
  }

  /** The `name` property of the framework's instrumentor. */
  function DisplayName(f: Framework): string
  {
    match f
    case OpenAI => "OpenAI"
    case Anthropic => "Anthropic"
    case LangChain => "LangChain"
    case LlamaIndex => "LlamaIndex"
    case Google => "Google"
  }

  /** The class name of the framework's instrumentor. */
  function ClassName(f: Framework): string
  {
    match f
    case OpenAI => "OpenAIInstrumentor"
    case Anthropic => "AnthropicInstrumentor"
    case LangChain => "LangChainInstrumentor"
    case LlamaIndex => "LlamaIndexInstrumentor"
    case Google => "GoogleAIInstrumentor"
  }

  /** The registration order of `_register_instrumentors`. */
  const Candidates: seq<Framework> := [OpenAI, Anthropic, LangChain, LlamaIndex, Google]

  /** Each registry key is the lower-cased name of its instrumentor. */
  lemma KeyIsLoweredName(f: Framework)
    ensures Lower(DisplayName(f)) == Key(f)
  {
    match f
    case OpenAI =>
      assert Lower("OpenAI") == "openai";
    case Anthropic =>
      assert Lower("Anthropic") == "anthropic";
    case LangChain =>
      assert Lower("LangChain") == "langchain";
    case LlamaIndex =>
      assert Lower("LlamaIndex") == "llamaindex";
    case Google =>
      assert Lower("Google") == "google";
  }

  lemma KeyInjective(f: Framework, g: Framework)
    requires Key(f) == Key(g)
    ensures f == g
  {
    assert Key(f)[0] == Key(g)[0];
    if Key(f)[0] == 'l' {
      assert Key(f)[1] == Key(g)[1];
    }
  }

  lemma ClassNameInjective(f: Framework, g: Framework)
    requires ClassName(f) == ClassName(g)
    ensures f == g
  {
    assert ClassName(f)[0] == ClassName(g)[0];
    if ClassName(f)[0] == 'L' {
      assert ClassName(f)[1] == ClassName(g)[1];
    }
  }

  predicate NoDuplicates<T(==)>(s: seq<T>)
  {
    forall j, k :: 0 <= j < k < |s| ==> s[j] != s[k]
  }

  /** `_register_instrumentors`: the candidates whose module imports, in order. */
  function Importable(candidates: seq<Framework>, importable: Framework -> bool): (r: seq<Framework>)
    ensures forall f :: f in r <==> f in candidates && importable(f)
    ensures NoDuplicates(candidates) ==> NoDuplicates(r)
  {
    if |candidates| == 0 then []
    else
      var rest := Importable(candidates[1..], importable);
      assert NoDuplicates(candidates) ==> candidates[0] !in candidates[1..];
      if importable(candidates[0]) then [candidates[0]] + rest else rest
  }

  /** What an active instrumentor looks like from outside: its name, class
      name and flag. */
  datatype Entry = Entry(name: string, className: string, instrumented: bool)

  function FirstOfClass(es: seq<Entry>, c: string): (r: Option<Entry>)
    ensures r.Some? ==> r.value in es && r.value.className == c
    ensures r.None? <==> forall e :: e in es ==> e.className != c
  {
    if |es| == 0 then None
    else if es[0].className == c then Some(es[0])
    else FirstOfClass(es[1..], c)
  }

  lemma {:induction false} FirstOfClassAppend(es: seq<Entry>, extra: seq<Entry>, c: string)
    requires forall e :: e in extra ==> e.className != c
    ensures FirstOfClass(es + extra, c) == FirstOfClass(es, c)
  {
    if |es| > 0 {
      assert (es + extra)[1..] == es[1..] + extra;
      FirstOfClassAppend(es[1..], extra, c);
    }
  }

  /** The first active instrumentor of `f`'s class exists and is instrumented. */
  predicate AlreadyInstrumented(es: seq<Entry>, f: Framework)
  {
    var first := FirstOfClass(es, ClassName(f));
    first.Some? && first.value.instrumented
  }

  function LowerAll(names: seq<string>): (r: seq<string>)
    ensures |r| == |names| && forall i :: 0 <= i < |names| ==> r[i] == Lower(names[i])
  {
    seq(|names|, i requires 0 <= i < |names| => Lower(names[i]))
  }

  /** `frameworks_to_instrument`: every registered key, or the lower-cased
      requested names, minus the lower-cased exclusions. */
  function Selected(registered: seq<Framework>, frameworks: Option<seq<string>>, exclude: Option<seq<string>>): (sel: set<string>)
    ensures exclude.Some? ==> forall i :: 0 <= i < |exclude.value| ==> Lower(exclude.value[i]) !in sel
    ensures frameworks.None? ==> forall k :: k in sel ==> exists f :: f in registered && Key(f) == k
    ensures frameworks.None? ==> forall f :: f in registered && (exclude.None? || Key(f) !in LowerAll(exclude.value)) ==> Key(f) in sel
    ensures frameworks.Some? ==> forall k :: k in sel ==> k in LowerAll(frameworks.value)
    ensures frameworks.Some? ==> forall i ::
              0 <= i < |frameworks.value| && (exclude.None? || Lower(frameworks.value[i]) !in LowerAll(exclude.value))
              ==> Lower(frameworks.value[i]) in sel
  {
    (if frameworks.None? then set f | f in registered :: Key(f) else set n | n in LowerAll(frameworks.value))
    - (if exclude.Some? then set n | n in LowerAll(exclude.value) else {})
  }

  /** A fresh instrumentor's `instrument()` succeeds. */
  predicate Succeeds(f: Framework, installed: Framework -> bool, hook: Framework -> HookOutcome)
  {
    InstrumentStep(false, installed(f), hook(f)).ok
  }

  /** The `results` dictionary after the loop has visited `regs`. */
  function AutoResults(regs: seq<Framework>, sel: set<string>, es: seq<Entry>,
                       installed: Framework -> bool, hook: Framework -> HookOutcome): (results: map<string, bool>)
    ensures forall k :: k in results ==> k in sel
  {
    if |regs| == 0 then map[]
    else
      var f := regs[|regs| - 1];
      var prev := AutoResults(regs[..|regs| - 1], sel, es, installed, hook);
      if Key(f) !in sel then prev
      else prev[Key(f) := AlreadyInstrumented(es, f) || Succeeds(f, installed, hook)]
  }

  /** The frameworks whose new instrumentor is appended to the active list. */
  function Activated(regs: seq<Framework>, sel: set<string>, es: seq<Entry>,
                     installed: Framework -> bool, hook: Framework -> HookOutcome): (fs: seq<Framework>)
    ensures |fs| <= |regs|
    ensures forall f :: f in fs ==>
              f in regs && Key(f) in sel && !AlreadyInstrumented(es, f) && Succeeds(f, installed, hook)
  {
    if |regs| == 0 then []
    else
      var f := regs[|regs| - 1];
      var prev := Activated(regs[..|regs| - 1], sel, es, installed, hook);
      if Key(f) in sel && !AlreadyInstrumented(es, f) && Succeeds(f, installed, hook) then prev + [f]
      else prev
  }

  /** One more framework visited appends at most its own new entry. */
  lemma ActivatedStep(regs: seq<Framework>, idx: nat, sel: set<string>, es: seq<Entry>,
                      installed: Framework -> bool, hook: Framework -> HookOutcome)
    requires idx < |regs|
    ensures NewEntries(Activated(regs[..idx + 1], sel, es, installed, hook))
         == NewEntries(Activated(regs[..idx], sel, es, installed, hook))
          + (if Key(regs[idx]) in sel && !AlreadyInstrumented(es, regs[idx]) && Succeeds(regs[idx], installed, hook)
             then [NewEntry(regs[idx])] else [])
  {
    assert regs[..idx + 1][..idx] == regs[..idx];
  }

  /** The result holds exactly the registered frameworks that were selected. */
  lemma {:induction false} AutoResultKeys(regs: seq<Framework>, sel: set<string>, es: seq<Entry>,
                                         installed: Framework -> bool, hook: Framework -> HookOutcome, n: string)
    ensures n in AutoResults(regs, sel, es, installed, hook) <==> n in sel && exists f :: f in regs && Key(f) == n
  {
    if |regs| > 0 {
      var init := regs[..|regs| - 1];
      AutoResultKeys(init, sel, es, installed, hook, n);
      assert regs == init + [regs[|regs| - 1]];
      if exists f :: f in regs && Key(f) == n {
        var f :| f in regs && Key(f) == n;
        assert f in init || f == regs[|regs| - 1];
      }
    }
  }

  /** A selected framework reports true when its instrumentor is already
      active and instrumented, and otherwise what a fresh `instrument()`
      returns. */
  lemma {:induction false} AutoResultValue(regs: seq<Framework>, sel: set<string>, es: seq<Entry>,
                                          installed: Framework -> bool, hook: Framework -> HookOutcome, f: Framework)
    requires NoDuplicates(regs) && f in regs && Key(f) in sel
    ensures Key(f) in AutoResults(regs, sel, es, installed, hook)
    ensures AutoResults(regs, sel, es, installed, hook)[Key(f)] == (AlreadyInstrumented(es, f) || Succeeds(f, installed, hook))
  {
    var init := regs[..|regs| - 1];
    var last := regs[|regs| - 1];
    if last != f {
      assert regs == init + [last];
      assert f in init;
      AutoResultValue(init, sel, es, installed, hook, f);
      if Key(last) == Key(f) {
        KeyInjective(last, f);
      }
    }
  }

  /** Only frameworks that were selected, were not already active and
      instrumented, and whose `instrument()` succeeded are appended. */
  lemma {:induction false} ActivatedExactly(regs: seq<Framework>, sel: set<string>, es: seq<Entry>,
                                           installed: Framework -> bool, hook: Framework -> HookOutcome, f: Framework)
    ensures f in Activated(regs, sel, es, installed, hook)
        <==> f in regs && Key(f) in sel && !AlreadyInstrumented(es, f) && Succeeds(f, installed, hook)
  {
    if |regs| > 0 {
      var init := regs[..|regs| - 1];
      assert regs == init + [regs[|regs| - 1]];
      ActivatedExactly(init, sel, es, installed, hook, f);
    }
  }

  lemma {:induction false} ActivatedNoDuplicates(regs: seq<Framework>, sel: set<string>, es: seq<Entry>,
                                                installed: Framework -> bool, hook: Framework -> HookOutcome)
    requires NoDuplicates(regs)
    ensures NoDuplicates(Activated(regs, sel, es, installed, hook))
  {
    if |regs| > 0 {
      var init := regs[..|regs| - 1];
      var last := regs[|regs| - 1];
      assert regs == init + [last];
      ActivatedNoDuplicates(init, sel, es, installed, hook);
      ActivatedExactly(init, sel, es, installed, hook, last);
    }
  }

  /** The entry a newly appended instrumentor shows. */
  function NewEntry(f: Framework): Entry
  {
    Entry(DisplayName(f), ClassName(f), true)
  }

  function NewEntries(fs: seq<Framework>): (r: seq<Entry>)
    ensures |r| == |fs|
    ensures forall k :: 0 <= k < |fs| ==> r[k] == NewEntry(fs[k])
  {
    seq(|fs|, k requires 0 <= k < |fs| => NewEntry(fs[k]))
  }

  /** Every entry is instrumented: the state `auto_instrument` and
      `uninstrument` keep the active list in. */
  predicate AllInstrumented(es: seq<Entry>)
  {
    forall k :: 0 <= k < |es| ==> es[k].instrumented
  }

  /** Appending entries does not change a lookup that already found one. */
  lemma {:induction false} FirstOfClassKeepsFound(es: seq<Entry>, extra: seq<Entry>, c: string)
    requires FirstOfClass(es, c).Some?
    ensures FirstOfClass(es + extra, c) == FirstOfClass(es, c)
  {
    if es[0].className != c {
      assert (es + extra)[1..] == es[1..] + extra;
      FirstOfClassKeepsFound(es[1..], extra, c);
    }
  }

  /** After one `auto_instrument`, a registered framework counts as already
      instrumented exactly when it did before, or it was selected and its
      fresh instrumentor succeeded. */
  lemma AlreadyAfterFirstCall(regs: seq<Framework>, sel: set<string>, es0: seq<Entry>,
                              installed: Framework -> bool, hook: Framework -> HookOutcome, f: Framework)
    requires NoDuplicates(regs) && AllInstrumented(es0) && f in regs
    ensures AlreadyInstrumented(es0 + NewEntries(Activated(regs, sel, es0, installed, hook)), f)
        == (AlreadyInstrumented(es0, f) || (Key(f) in sel && Succeeds(f, installed, hook)))
  {
    var fs := Activated(regs, sel, es0, installed, hook);
    if AlreadyInstrumented(es0, f) {
      FirstOfClassKeepsFound(es0, NewEntries(fs), ClassName(f));
    } else {
      ActivatedExactly(regs, sel, es0, installed, hook, f);
      if f in fs {
        ActivatedIsFound(es0, fs, f);
      } else {
        OthersLeaveLookup(es0, fs, f);
      }
    }
  }

  /** A framework with a new entry is found instrumented, when every entry is. */
  lemma ActivatedIsFound(es0: seq<Entry>, fs: seq<Framework>, f: Framework)
    requires AllInstrumented(es0) && f in fs
    ensures AlreadyInstrumented(es0 + NewEntries(fs), f)
  {
    var es1 := es0 + NewEntries(fs);
    var k :| 0 <= k < |fs| && fs[k] == f;
    assert es1[|es0| + k] == NewEntry(f);
    var e := FirstOfClass(es1, ClassName(f)).value;
    var j :| 0 <= j < |es1| && es1[j] == e;
    assert j < |es0| ==> es0[j] == e;
  }

  /** New entries of other frameworks do not change the lookup for `f`. */
  lemma OthersLeaveLookup(es0: seq<Entry>, fs: seq<Framework>, f: Framework)
    requires f !in fs
    ensures AlreadyInstrumented(es0 + NewEntries(fs), f) == AlreadyInstrumented(es0, f)
  {
    var extra := NewEntries(fs);
    forall e | e in extra
      ensures e.className != ClassName(f)
    {
      var k :| 0 <= k < |extra| && extra[k] == e;
      if ClassName(fs[k]) == ClassName(f) {
        ClassNameInjective(fs[k], f);
      }
    }
    FirstOfClassAppend(es0, extra, ClassName(f));
  }

  lemma {:induction false} AutoResultsAgree(rs: seq<Framework>, sel: set<string>, es0: seq<Entry>, es1: seq<Entry>,
                                           installed: Framework -> bool, hook: Framework -> HookOutcome)
    requires forall f :: f in rs && Key(f) in sel ==>
               (AlreadyInstrumented(es1, f) || Succeeds(f, installed, hook)) == (AlreadyInstrumented(es0, f) || Succeeds(f, installed, hook))
    ensures AutoResults(rs, sel, es1, installed, hook) == AutoResults(rs, sel, es0, installed, hook)
  {
    if |rs| > 0 {
      var init := rs[..|rs| - 1];
      assert rs == init + [rs[|rs| - 1]];
      AutoResultsAgree(init, sel, es0, es1, installed, hook);
    }
  }

  lemma {:induction false} NothingActivated(rs: seq<Framework>, sel: set<string>, es: seq<Entry>,
                                           installed: Framework -> bool, hook: Framework -> HookOutcome)
    requires forall f :: f in rs && Key(f) in sel && Succeeds(f, installed, hook) ==> AlreadyInstrumented(es, f)
    ensures Activated(rs, sel, es, installed, hook) == []
  {
    if |rs| > 0 {
      var init := rs[..|rs| - 1];
      assert rs == init + [rs[|rs| - 1]];
      NothingActivated(init, sel, es, installed, hook);
    }
  }

  /**
   * Instrumentation is idempotent: over an active list whose entries are all
   * instrumented, a second `auto_instrument` with the same arguments and the
   * same outcomes reports the same results and appends nothing.
   */
  lemma AutoInstrumentIdempotent(regs: seq<Framework>, sel: set<string>, es0: seq<Entry>,
                                 installed: Framework -> bool, hook: Framework -> HookOutcome)
    requires NoDuplicates(regs) && AllInstrumented(es0)
    ensures var es1 := es0 + NewEntries(Activated(regs, sel, es0, installed, hook));
      AllInstrumented(es1) &&
      AutoResults(regs, sel, es1, installed, hook) == AutoResults(regs, sel, es0, installed, hook) &&
      Activated(regs, sel, es1, installed, hook) == []
  {
    var es1 := es0 + NewEntries(Activated(regs, sel, es0, installed, hook));
    forall f | f in regs
      ensures AlreadyInstrumented(es1, f) == (AlreadyInstrumented(es0, f) || (Key(f) in sel && Succeeds(f, installed, hook)))
    {
      AlreadyAfterFirstCall(regs, sel, es0, installed, hook, f);
    }
    AutoResultsAgree(regs, sel, es0, es1, installed, hook);
    NothingActivated(regs, sel, es1, installed, hook);
  }

  // ---------------------------------------------------------------------
  // uninstrument
  // ---------------------------------------------------------------------

  /** The instrumentor is one `uninstrument(frameworks)` acts on. */
  predicate Named(e: Entry, frameworks: Option<seq<string>>)
  {
    frameworks.None? || Lower(e.name) in LowerAll(frameworks.value)
  }

  /** The instrumentor stays in the active list. */
  predicate Kept(e: Entry, frameworks: Option<seq<string>>, h: HookOutcome)
  {
    !Named(e, frameworks) || !UninstrumentStep(e.instrumented, h).ok
  }

  /** The `results` dictionary of `uninstrument` after visiting `es`; `hook(k)`
      is how the k-th instrumentor's `_uninstrument` ends. */
  function UninstallResults(es: seq<Entry>, frameworks: Option<seq<string>>, hook: nat -> HookOutcome): map<string, bool>
  {
    if |es| == 0 then map[]
    else
      var k := |es| - 1;
      var prev := UninstallResults(es[..k], frameworks, hook);
      if Named(es[k], frameworks) then prev[Lower(es[k].name) := UninstrumentStep(es[k].instrumented, hook(k)).ok] else prev
  }

  /** The positions of the instrumentors in `remaining`, in order. */
  function KeptIndices(es: seq<Entry>, frameworks: Option<seq<string>>, hook: nat -> HookOutcome): (r: seq<nat>)
    ensures forall j :: 0 <= j < |r| ==> r[j] < |es|
    ensures forall i, j :: 0 <= i < j < |r| ==> r[i] < r[j]
  {
    if |es| == 0 then []
    else
      var k := |es| - 1;
      var prev := KeptIndices(es[..k], frameworks, hook);
      if Kept(es[k], frameworks, hook(k)) then prev + [k] else prev
  }

  /** The entries at the given positions. */
  function Pick(es: seq<Entry>, ks: seq<nat>): (r: seq<Entry>)
    requires forall j :: 0 <= j < |ks| ==> ks[j] < |es|
  {
    seq(|ks|, j requires 0 <= j < |ks| => es[ks[j]])
  }

  /** One more instrumentor visited by `uninstrument`. */
  lemma UninstallStep(es: seq<Entry>, k: nat, frameworks: Option<seq<string>>, hook: nat -> HookOutcome)
    requires k < |es|
    ensures UninstallResults(es[..k + 1], frameworks, hook)
         == if Named(es[k], frameworks)
            then UninstallResults(es[..k], frameworks, hook)[Lower(es[k].name) := UninstrumentStep(es[k].instrumented, hook(k)).ok]
            else UninstallResults(es[..k], frameworks, hook)
    ensures Pick(es, KeptIndices(es[..k + 1], frameworks, hook))
         == Pick(es, KeptIndices(es[..k], frameworks, hook)) + (if Kept(es[k], frameworks, hook(k)) then [es[k]] else [])
  {
    assert es[..k + 1][..k] == es[..k];
  }

  /** `uninstrument` keeps exactly the instrumentors it does not name and
      those whose uninstrument failed. */
  lemma {:induction false} KeptIndicesExactly(es: seq<Entry>, frameworks: Option<seq<string>>, hook: nat -> HookOutcome, k: nat)
    ensures k in KeptIndices(es, frameworks, hook)
        <==> k < |es| && (!Named(es[k], frameworks) || (es[k].instrumented && hook(k) == Raises))
  {
    if |es| > 0 {
      var last := |es| - 1;
      KeptIndicesExactly(es[..last], frameworks, hook, k);
    }
  }

  /** Uninstrumenting everything when every `_uninstrument` completes leaves
      nothing active. */
  lemma UninstrumentAllEmpties(es: seq<Entry>, hook: nat -> HookOutcome)
    requires forall k :: 0 <= k < |es| ==> hook(k) == Completes
    ensures KeptIndices(es, None, hook) == []
  {
    if |KeptIndices(es, None, hook)| > 0 {
      var k := KeptIndices(es, None, hook)[0];
      KeptIndicesExactly(es, None, hook, k);
    }
  }

  /** The uninstrument result holds exactly the lower-cased names of the
      named instrumentors. */
  lemma {:induction false} UninstallResultKeys(es: seq<Entry>, frameworks: Option<seq<string>>, hook: nat -> HookOutcome, n: string)
    ensures n in UninstallResults(es, frameworks, hook)
        <==> exists k :: 0 <= k < |es| && Named(es[k], frameworks) && Lower(es[k].name) == n
  {
    if |es| > 0 {
      var last := |es| - 1;
      UninstallResultKeys(es[..last], frameworks, hook, n);
      if exists k :: 0 <= k < |es| && Named(es[k], frameworks) && Lower(es[k].name) == n {
        var k :| 0 <= k < |es| && Named(es[k], frameworks) && Lower(es[k].name) == n;
        if k < last {
          assert es[..last][k] == es[k];
        }
      }
    }
  }

  // ---------------------------------------------------------------------
  // get_instrumented_frameworks / is_instrumented
  // ---------------------------------------------------------------------

  /** `get_instrumented_frameworks` over the active entries. */
  function InstrumentedNames(es: seq<Entry>): (r: seq<string>)
    ensures |r| <= |es|
    ensures forall n :: n in r <==> exists e :: e in es && e.instrumented && Lower(e.name) == n
  {
    if |es| == 0 then []
    else
      var rest := InstrumentedNames(es[1..]);
      assert forall e :: e in es <==> e == es[0] || e in es[1..];
      (if es[0].instrumented then [Lower(es[0].name)] else []) + rest
  }

  /** `is_instrumented(framework)` over the active entries. */
  function AnyInstrumented(es: seq<Entry>, framework: string): (r: bool)
    ensures r <==> exists e :: e in es && e.instrumented && Lower(e.name) == Lower(framework)
  {
    if |es| == 0 then false
    else
      assert forall e :: e in es <==> e == es[0] || e in es[1..];
      (Lower(es[0].name) == Lower(framework) && es[0].instrumented) || AnyInstrumented(es[1..], framework)
  }

  /** A framework is instrumented exactly when its lower-cased name is listed. */
  lemma InstrumentedIffListed(es: seq<Entry>, framework: string)
    ensures AnyInstrumented(es, framework) <==> Lower(framework) in InstrumentedNames(es)
  {
  }

  /** The question ignores case. */
  lemma InstrumentedIgnoresCase(es: seq<Entry>, a: string, b: string)
    requires Lower(a) == Lower(b)
    ensures AnyInstrumented(es, a) == AnyInstrumented(es, b)
  {
  }

  // ---------------------------------------------------------------------
  // The module state
  // ---------------------------------------------------------------------

  /** An instrumentor of one of the registered frameworks. */
  predicate Known(e: Entry, registered: seq<Framework>)
  {
    exists g :: g in registered && e.name == DisplayName(g) && e.className == ClassName(g)
  }

  /** The module-level `_INSTRUMENTORS` registry and `_active_instrumentors`
      list; each active instrumentor is kept as its name, class name and flag. */
  class Registry {
    var registered: seq<Framework>
    var active: seq<Entry>

    ghost predicate Valid()
      reads this
    {
      && NoDuplicates(registered)
      && (|registered| == 0 ==> |active| == 0)
      && (forall k :: 0 <= k < |active| ==> Known(active[k], registered))
      && AllInstrumented(active)
    }

    constructor ()
      ensures Valid()
      ensures registered == [] && active == []
    {
      registered := [];
      active := [];
    }

    /** `_register_instrumentors`: a no-op once anything is registered. */
    method Register(importable: Framework -> bool)
      requires Valid()
      modifies this
      ensures Valid()
      ensures registered == (if |old(registered)| == 0 then Importable(Candidates, importable) else old(registered))
      ensures active == old(active)
    {
      if |registered| > 0 {
        return;
      }
      assert NoDuplicates(Candidates);
      registered := Importable(Candidates, importable);
    }

    /** `auto_instrument(frameworks, exclude)`; `importable`, `installed` and
        `hook` stand for the imports, `_check_installed()` and `_instrument()`. */
    method AutoInstrument(importable: Framework -> bool, frameworks: Option<seq<string>>, exclude: Option<seq<string>>,
                          installed: Framework -> bool, hook: Framework -> HookOutcome)
      returns (results: map<string, bool>)
      requires Valid()
      modifies this
      ensures Valid()
      ensures registered == (if |old(registered)| == 0 then Importable(Candidates, importable) else old(registered))
      ensures results == AutoResults(registered, Selected(registered, frameworks, exclude), old(active), installed, hook)
      ensures active == old(active) + NewEntries(Activated(registered, Selected(registered, frameworks, exclude), old(active), installed, hook))
    {
      Register(importable);
      var sel := Selected(registered, frameworks, exclude);
      ghost var es0 := active;
      results := map[];
      var idx := 0;
      while idx < |registered|
        invariant 0 <= idx <= |registered|
        invariant Valid()
        invariant registered == (if |old(registered)| == 0 then Importable(Candidates, importable) else old(registered))
        invariant results == AutoResults(registered[..idx], sel, es0, installed, hook)
        invariant active == es0 + NewEntries(Activated(registered[..idx], sel, es0, installed, hook))
      {
        results := Visit(idx, sel, es0, installed, hook, results);
        idx := idx + 1;
      }
      assert registered[..idx] == registered;
    }

    /** One iteration of the `auto_instrument` loop: the framework at `idx`. */
    method Visit(idx: nat, sel: set<string>, ghost es0: seq<Entry>,
                 installed: Framework -> bool, hook: Framework -> HookOutcome, results: map<string, bool>)
      returns (results': map<string, bool>)
      requires Valid() && idx < |registered|
      requires results == AutoResults(registered[..idx], sel, es0, installed, hook)
      requires active == es0 + NewEntries(Activated(registered[..idx], sel, es0, installed, hook))
      modifies this
      ensures Valid() && registered == old(registered)
      ensures results' == AutoResults(registered[..idx + 1], sel, es0, installed, hook)
      ensures active == es0 + NewEntries(Activated(registered[..idx + 1], sel, es0, installed, hook))
    {
      var f := registered[idx];
      assert registered[..idx + 1][..idx] == registered[..idx];
      ActivatedStep(registered, idx, sel, es0, installed, hook);
      results' := results;
      if Key(f) in sel {
        ExistingUnaffected(es0, registered, idx, sel, installed, hook);
        if AlreadyInstrumented(active, f) {
          results' := results[Key(f) := true];
        } else {
          var step := InstrumentStep(false, installed(f), hook(f));
          results' := results[Key(f) := step.ok];
          if step.ok {
            assert Known(NewEntry(f), registered);
            AppendAssoc(es0, NewEntries(Activated(registered[..idx], sel, es0, installed, hook)), [NewEntry(f)]);
            active := active + [NewEntry(f)];
          }
        }
      }
    }

    /** The instrumentors appended while visiting earlier frameworks are of
        other classes, so the lookup for `registered[idx]` sees only the
        entries that were active before the call. */
    static lemma ExistingUnaffected(es0: seq<Entry>, registered: seq<Framework>, idx: nat, sel: set<string>,
                                    installed: Framework -> bool, hook: Framework -> HookOutcome)
      requires NoDuplicates(registered) && idx < |registered|
      ensures AlreadyInstrumented(es0 + NewEntries(Activated(registered[..idx], sel, es0, installed, hook)), registered[idx])
          == AlreadyInstrumented(es0, registered[idx])
    {
      var f := registered[idx];
      var fs := Activated(registered[..idx], sel, es0, installed, hook);
      var extra := NewEntries(fs);
      forall e | e in extra
        ensures e.className != ClassName(f)
      {
        var k :| 0 <= k < |extra| && extra[k] == e;
        ActivatedExactly(registered[..idx], sel, es0, installed, hook, fs[k]);
        if ClassName(fs[k]) == ClassName(f) {
          ClassNameInjective(fs[k], f);
        }
      }
      FirstOfClassAppend(es0, extra, ClassName(f));
    }

    /** `uninstrument(frameworks)`; `hook(k)` is how the k-th active
        instrumentor's `_uninstrument()` ends. */
    method Uninstrument(frameworks: Option<seq<string>>, hook: nat -> HookOutcome) returns (results: map<string, bool>)
      requires Valid()
      modifies this
      ensures Valid()
      ensures registered == old(registered)
      ensures results == UninstallResults(old(active), frameworks, hook)
      ensures active == Pick(old(active), KeptIndices(old(active), frameworks, hook))
    {
      var remaining;
      results, remaining := UninstallAll(active, frameworks, hook);
      PickKeepsKnown(active, KeptIndices(active, frameworks, hook), registered);
      active := remaining;
    }

    /** The loop of `uninstrument` over the active list `es`. */
    static method UninstallAll(es: seq<Entry>, frameworks: Option<seq<string>>, hook: nat -> HookOutcome)
      returns (results: map<string, bool>, remaining: seq<Entry>)
      ensures results == UninstallResults(es, frameworks, hook)
      ensures remaining == Pick(es, KeptIndices(es, frameworks, hook))
    {
      remaining := [];
      results := map[];
      for k := 0 to |es|
        invariant results == UninstallResults(es[..k], frameworks, hook)
        invariant remaining == Pick(es, KeptIndices(es[..k], frameworks, hook))
      {
        var e := es[k];
        UninstallStep(es, k, frameworks, hook);
        var name := Lower(e.name);
        if frameworks.Some? && name !in LowerAll(frameworks.value) {
          remaining := remaining + [e];
          continue;
        }
        var step := UninstrumentStep(e.instrumented, hook(k));
        results := results[name := step.ok];
        if !step.ok {
          remaining := remaining + [e];
        }
      }
      assert es[..|es|] == es;
    }

    static lemma PickKeepsKnown(es: seq<Entry>, ks: seq<nat>, registered: seq<Framework>)
      requires forall k :: 0 <= k < |es| ==> Known(es[k], registered)
      requires AllInstrumented(es)
      requires forall j :: 0 <= j < |ks| ==> ks[j] < |es|
      ensures forall j :: 0 <= j < |Pick(es, ks)| ==> Known(Pick(es, ks)[j], registered)
      ensures AllInstrumented(Pick(es, ks))
    {
      forall j | 0 <= j < |Pick(es, ks)|
        ensures Known(Pick(es, ks)[j], registered) && Pick(es, ks)[j].instrumented
      {
        assert Pick(es, ks)[j] == es[ks[j]];
      }
    }

    /** `get_instrumented_frameworks()`. */
    function InstrumentedFrameworks(): seq<string>
      reads this
    {
      InstrumentedNames(active)
    }

    /** `is_instrumented(framework)`. */
    function IsInstrumented(framework: string): bool
      reads this
    {
      AnyInstrumented(active, framework)
    }

    /** A name that is no registered key is never reported instrumented. */
    lemma UnknownFrameworkNotInstrumented(framework: string)
      requires Valid()
      requires forall g :: g in registered ==> Key(g) != Lower(framework)
      ensures !IsInstrumented(framework)
    {
      if IsInstrumented(framework) {
        var e :| e in active && e.instrumented && Lower(e.name) == Lower(framework);
        var k :| 0 <= k < |active| && active[k] == e;
        assert Known(active[k], registered);
        var g :| g in registered && e.name == DisplayName(g) && e.className == ClassName(g);
        KeyIsLoweredName(g);
        assert false;
      }
    }
  }
}

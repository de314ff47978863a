/** The observable calls the session coordinator makes into its
    collaborators, recorded in the order they happen. The class in
    module Session keeps such a log as a ghost field; this module gives
    the orderings the coordinator guarantees and the projections onto
    the diagnostics provider's `publish` and
    `processDocumentsWaitingForPublish` calls. */
module Trace {
  import opened Wrappers

  type Uri = string

  datatype Step =
    | GrammarLoaded                 // initialize assigns the loaded tokenizer
    | ProvidersRegistered           // initialize's provider registration returns
    | HandlersSubscribed            // initialize has attached the document handlers
    | WorkspaceRegistered           // up registers the workspace provider
    | ConfigListenerRegistered      // up's registration of the change callback resolves
    | ConfigMerged(duringUp: bool)  // a configuration load completes, inside up or from the callback
    | ConfigLoadedSet               // up marks the configuration loaded
    | WaitingProcessed              // up asks the diagnostics provider to flush its waiting documents
    | Published(uri: Uri)           // a handler asks the diagnostics provider to publish a uri

  /** The step that must come immediately before `s`, if any. */
  function Required(s: Step): Option<Step> {
    match s
    case ProvidersRegistered => Some(GrammarLoaded)
    case HandlersSubscribed => Some(ProvidersRegistered)
    case ConfigLoadedSet => Some(ConfigMerged(true))
    case WaitingProcessed => Some(ConfigLoadedSet)
    case _ => None
  }

  predicate PrecededBy(t: seq<Step>, i: int, s: Step) {
    0 < i <= |t| && t[i - 1] == s
  }

  /** Every step with a required predecessor comes straight after it. */
  predicate Ordered(t: seq<Step>) {
    forall i {:trigger Required(t[i])} ::
      0 <= i < |t| && Required(t[i]).Some? ==> PrecededBy(t, i, Required(t[i]).value)
  }

  /** The uris passed to `publish`, in call order. */
  function Publishes(t: seq<Step>): seq<Uri> {
    if t == [] then []
    else
      var rest := Publishes(t[..|t| - 1]);
      assert t == t[..|t| - 1] + [t[|t| - 1]];
      match t[|t| - 1]
      case Published(u) => rest + [u]
      case _ => rest
  }

  /** How many times `processDocumentsWaitingForPublish` was called. */
  function Flushes(t: seq<Step>): nat {
    if t == [] then 0
    else
      assert t == t[..|t| - 1] + [t[|t| - 1]];
      Flushes(t[..|t| - 1]) + (if t[|t| - 1] == WaitingProcessed then 1 else 0)
  }

  /** At most one uri per step, and exactly the uris of the publish
      requests in the log. */
  lemma {:induction false} PublishesSpec(t: seq<Step>)
    ensures |Publishes(t)| <= |t|
    ensures forall u :: u in Publishes(t) <==> Published(u) in t
  {
    if t != [] {
      var init := t[..|t| - 1];
      assert t == init + [t[|t| - 1]];
      PublishesSpec(init);
    }
  }

  /** At most one flush per step, and none exactly when the log holds no
      flush. */
  lemma {:induction false} FlushesSpec(t: seq<Step>)
    ensures Flushes(t) <= |t|
    ensures Flushes(t) == 0 <==> WaitingProcessed !in t
  {
    if t != [] {
      var init := t[..|t| - 1];
      assert t == init + [t[|t| - 1]];
      FlushesSpec(init);
    }
  }

  lemma {:induction false} PublishesAppend(a: seq<Step>, b: seq<Step>)
    ensures Publishes(a + b) == Publishes(a) + Publishes(b)
    decreases |b|
  {
    if b != [] {
      var init := b[..|b| - 1];
      assert (a + b)[..|a + b| - 1] == a + init;
      assert (a + b)[|a + b| - 1] == b[|b| - 1];
      PublishesAppend(a, init);
      assert Publishes(a + b) == Publishes(a + init) + Publishes([b[|b| - 1]]);
      assert Publishes(b) == Publishes(init) + Publishes([b[|b| - 1]]);
    } else {
      assert a + b == a;
    }
  }

  lemma {:induction false} FlushesAppend(a: seq<Step>, b: seq<Step>)
    ensures Flushes(a + b) == Flushes(a) + Flushes(b)
    decreases |b|
  {
    if b != [] {
      var init := b[..|b| - 1];
      assert (a + b)[..|a + b| - 1] == a + init;
      assert (a + b)[|a + b| - 1] == b[|b| - 1];
      FlushesAppend(a, init);
      assert Flushes(a + b) == Flushes(a + init) + Flushes([b[|b| - 1]]);
      assert Flushes(b) == Flushes(init) + Flushes([b[|b| - 1]]);
    } else {
      assert a + b == a;
    }
  }

  /** Appending a step keeps the log ordered exactly when the step's
      required predecessor is the last step so far. */
  lemma OrderedSnoc(t: seq<Step>, s: Step)
    requires Ordered(t)
    ensures Ordered(t + [s]) <==> (Required(s).Some? ==> PrecededBy(t + [s], |t|, Required(s).value))
  {
    var t' := t + [s];
    assert t'[|t|] == s;
    if Required(s).Some? ==> PrecededBy(t', |t|, Required(s).value) {
      forall i | 0 <= i < |t'| && Required(t'[i]).Some?
        ensures PrecededBy(t', i, Required(t'[i]).value)
      {
        if i < |t| {
          assert t'[i] == t[i] && PrecededBy(t, i, Required(t[i]).value);
        }
      }
    }
  }

  /** Appending one step: the log stays ordered when the step's required
      predecessor is the last step so far, and the step adds to the two
      projections only if it is a publish request or a flush. */
  lemma Snoc(t: seq<Step>, s: Step)
    requires Ordered(t)
    requires Required(s).Some? ==> |t| > 0 && t[|t| - 1] == Required(s).value
    ensures Ordered(t + [s])
    ensures Publishes(t + [s]) == Publishes(t) + (if s.Published? then [s.uri] else [])
    ensures Flushes(t + [s]) == Flushes(t) + (if s == WaitingProcessed then 1 else 0)
  {
    OrderedSnoc(t, s);
    PublishesAppend(t, [s]);
    FlushesAppend(t, [s]);
    assert [s][..0] == [];
  }

  /** Waiting documents are processed only right after configLoaded was
      set, which in turn happens only right after the load that up
      performs, never right after a reload from the change callback. */
  lemma FlushFollowsLoad(t: seq<Step>, i: int)
    requires Ordered(t) && 0 <= i < |t| && t[i] == WaitingProcessed
    ensures 2 <= i && t[i - 1] == ConfigLoadedSet && t[i - 2] == ConfigMerged(true)
  {
    assert Required(t[i]) == Some(ConfigLoadedSet);
    assert PrecededBy(t, i, ConfigLoadedSet);
    assert Required(t[i - 1]) == Some(ConfigMerged(true));
  }

  /** Likewise providers are registered only after the tokenizer is set,
      and handlers only after the providers. */
  lemma SubscribeFollowsGrammar(t: seq<Step>, i: int)
    requires Ordered(t) && 0 <= i < |t| && t[i] == HandlersSubscribed
    ensures 2 <= i && t[i - 1] == ProvidersRegistered && t[i - 2] == GrammarLoaded
  {
    assert Required(t[i]) == Some(ProvidersRegistered);
    assert PrecededBy(t, i, ProvidersRegistered);
    assert Required(t[i - 1]) == Some(GrammarLoaded);
  }
}

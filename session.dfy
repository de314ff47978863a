/** The session coordinator of the language server: it sequences start-up,
    loads the configuration and routes the live-document events to the
    documents collection and the diagnostics provider. */
module Session {
  import opened Wrappers
  import opened Configuration
  import opened Trace

  type Text = string

  /** A token of the tokenized representation; its shape belongs to the
      tokenizer and is opaque here. */
  datatype Token = Token(scope: string, start: nat, length: nat)

  type Tokens = seq<Token>

  /** A tokenizer with a loaded grammar: whichever function of the text
      that grammar defines. */
  datatype Tokenizer = Tokenizer(tokenize: Text -> Tokens)

  function Tokenize(tokenizer: Tokenizer, text: Text): Tokens {
    tokenizer.tokenize(text)
  }

  /** An instance of the diagnostics provider, as its registration returns it. */
  datatype DiagnosticsProvider = DiagnosticsProvider

  class ServerManager {
    /** Whether the client can be asked for its configuration; fixed at construction. */
    const supportsWorkspaceConfiguration: bool

    var config: Config
    var configLoaded: bool
    var tokenizer: Option<Tokenizer>
    var diagnosticsProvider: Option<DiagnosticsProvider>
    /** The documents collection: the tokenized representation of each open document. */
    var documents: map<Uri, Tokens>
    /** Whether the will-save, did-save and did-open handlers are attached. */
    var handlersSubscribed: bool
    /** Whether the configuration-change callback is registered. */
    var configListenerRegistered: bool

    /** Every call into a collaborator so far, in order. */
    ghost var trace: seq<Step>

    /** The session invariant: the log is ordered, nothing was published
        while the handlers were missing, nothing was flushed while the
        configuration was not loaded, and handlers exist only together
        with a tokenizer. */
    ghost predicate Valid()
      reads this`config, this`configLoaded, this`tokenizer, this`diagnosticsProvider
      reads this`handlersSubscribed, this`configListenerRegistered, this`trace
    {
      && WellFormed(config)
      && Ordered(trace)
      && (!handlersSubscribed ==> Publishes(trace) == [])
      && (!configLoaded ==> Flushes(trace) == 0)
      && (handlersSubscribed ==> tokenizer.Some?)
      && (configListenerRegistered ==> supportsWorkspaceConfiguration)
    }

    /** The uris the diagnostics provider was asked to publish, in order. */
    ghost function PublishLog(): seq<Uri>
      reads this`trace
    {
      Publishes(trace)
    }

    /** How often the diagnostics provider was asked to flush its waiting documents. */
    ghost function FlushCount(): nat
      reads this`trace
    {
      Flushes(trace)
    }

    /** A new session: `defaults` is the default server configuration,
        and nothing is loaded, registered or attached yet. */
    constructor (supportsWorkspaceConfiguration: bool, defaults: Config)
      requires WellFormed(defaults)
      ensures Valid()
      ensures this.supportsWorkspaceConfiguration == supportsWorkspaceConfiguration
      ensures config == defaults && !configLoaded
      ensures tokenizer == None && diagnosticsProvider == None && documents == map[]
      ensures !handlersSubscribed && !configListenerRegistered && trace == []
    {
      this.supportsWorkspaceConfiguration := supportsWorkspaceConfiguration;
      config := defaults;
      configLoaded := false;
      tokenizer := None;
      diagnosticsProvider := None;
      documents := map[];
      handlersSubscribed := false;
      configListenerRegistered := false;
      trace := [];
    }

    /** initialize: `loaded` is the tokenizer the grammar load resolves to,
        or None when the load rejects; then initialize fails before any
        assignment. `registered` is what the diagnostics provider's
        registration returns, which may be no instance. */
    method Initialize(loaded: Option<Tokenizer>, registered: Option<DiagnosticsProvider>) returns (ok: bool)
      requires Valid() && !handlersSubscribed
      modifies this`tokenizer, this`diagnosticsProvider, this`handlersSubscribed, this`trace
      ensures Valid()
      ensures ok == loaded.Some?
      ensures ok ==> tokenizer == loaded && diagnosticsProvider == registered && handlersSubscribed
      ensures ok ==> trace == old(trace) + [GrammarLoaded, ProvidersRegistered, HandlersSubscribed]
      ensures !ok ==> tokenizer == old(tokenizer) && diagnosticsProvider == old(diagnosticsProvider)
      ensures !ok ==> !handlersSubscribed && trace == old(trace)
      ensures PublishLog() == old(PublishLog()) && FlushCount() == old(FlushCount())
    {
      if loaded.None? {
        return false;
      }
      tokenizer := loaded;
      LogStep(GrammarLoaded);
      RegisterProviders(registered);
      RegisterLiveDocumentsEvents();
      ok := true;
    }

    /** registerProviders: the providers are registered against a session
        whose tokenizer is already set; only the diagnostics provider's
        registration result is kept. */
    method RegisterProviders(registered: Option<DiagnosticsProvider>)
      requires Valid() && tokenizer.Some? && |trace| > 0 && trace[|trace| - 1] == GrammarLoaded
      modifies this`diagnosticsProvider, this`trace
      ensures Valid()
      ensures diagnosticsProvider == registered
      ensures trace == old(trace) + [ProvidersRegistered]
      ensures PublishLog() == old(PublishLog()) && FlushCount() == old(FlushCount())
    {
      diagnosticsProvider := registered;
      LogStep(ProvidersRegistered);
    }

    /** registerLiveDocumentsEvents: attach the will-save, did-save and
        did-open handlers. */
    method RegisterLiveDocumentsEvents()
      requires Valid() && !handlersSubscribed && tokenizer.Some?
      requires |trace| > 0 && trace[|trace| - 1] == ProvidersRegistered
      modifies this`handlersSubscribed, this`trace
      ensures Valid()
      ensures handlersSubscribed
      ensures trace == old(trace) + [HandlersSubscribed]
      ensures PublishLog() == old(PublishLog()) && FlushCount() == old(FlushCount())
    {
      handlersSubscribed := true;
      LogStep(HandlersSubscribed);
    }

    /** up: `fetched` is what its one unconditional configuration fetch
        resolves to, or None when the load rejects (the fetch rejects, or
        it resolves to null and the destructuring throws); then up stops
        before `configLoaded` is set. */
    method Up(fetched: Option<Record>) returns (ok: bool)
      requires Valid()
      modifies this`configListenerRegistered, this`config, this`configLoaded, this`trace
      ensures Valid()
      ensures ok == fetched.Some?
      ensures configListenerRegistered == (old(configListenerRegistered) || supportsWorkspaceConfiguration)
      ensures config == if ok then Merge(old(config), FromRecord(fetched.value)) else old(config)
      ensures configLoaded == (old(configLoaded) || ok)
      ensures trace == old(trace) + [WorkspaceRegistered]
                + (if supportsWorkspaceConfiguration then [ConfigListenerRegistered] else [])
                + (if ok then [ConfigMerged(true), ConfigLoadedSet] else [])
                + (if ok && diagnosticsProvider.Some? then [WaitingProcessed] else [])
      ensures PublishLog() == old(PublishLog())
      ensures FlushCount() == old(FlushCount()) + (if ok && diagnosticsProvider.Some? then 1 else 0)
    {
      RegisterWorkspace();
      ok := LoadConfig(fetched, true);
      if ok {
        MarkLoaded();
      }
    }

    /** The start of up: the workspace provider, then the
        configuration-change callback when the client can be asked for its
        configuration. */
    method RegisterWorkspace()
      requires Valid()
      modifies this`configListenerRegistered, this`trace
      ensures Valid()
      ensures configListenerRegistered == (old(configListenerRegistered) || supportsWorkspaceConfiguration)
      ensures trace == old(trace) + [WorkspaceRegistered]
                + (if supportsWorkspaceConfiguration then [ConfigListenerRegistered] else [])
      ensures PublishLog() == old(PublishLog()) && FlushCount() == old(FlushCount())
    {
      LogStep(WorkspaceRegistered);
      if supportsWorkspaceConfiguration {
        configListenerRegistered := true;
        LogStep(ConfigListenerRegistered);
      }
    }

    /** The end of up: once up's own load is merged, mark the
        configuration loaded and flush the documents that waited for it. */
    method MarkLoaded()
      requires Valid() && |trace| > 0 && trace[|trace| - 1] == ConfigMerged(true)
      modifies this`configLoaded, this`trace
      ensures Valid()
      ensures configLoaded
      ensures trace == old(trace) + [ConfigLoadedSet]
                + (if diagnosticsProvider.Some? then [WaitingProcessed] else [])
      ensures PublishLog() == old(PublishLog())
      ensures FlushCount() == old(FlushCount()) + (if diagnosticsProvider.Some? then 1 else 0)
    {
      configLoaded := true;
      LogStep(ConfigLoadedSet);
      if diagnosticsProvider.Some? {
        LogStep(WaitingProcessed);
      }
    }

    /** loadConfig: fetch, then merge the options onto the top level and
        each sub-section onto its previous value, one assignment at a
        time. The ghost `duringUp` records in the log who asked for the
        load: up, or the configuration-change callback. */
    method LoadConfig(fetched: Option<Record>, ghost duringUp: bool) returns (ok: bool)
      requires Valid()
      modifies this`config, this`trace
      ensures Valid()
      ensures ok == fetched.Some?
      ensures config == if ok then Merge(old(config), FromRecord(fetched.value)) else old(config)
      ensures trace == old(trace) + (if ok then [ConfigMerged(duringUp)] else [])
      ensures PublishLog() == old(PublishLog()) && FlushCount() == old(FlushCount())
    {
      if fetched.None? {
        return false;
      }
      ghost var previous := config;
      var update := FromRecord(fetched.value);
      config := config.(top := config.top + update.rest);
      config := config.(completion := MergeSection(config.completion, update.completion));
      config := config.(hovering := MergeSection(config.hovering, update.hovering));
      config := config.(formatter := MergeSection(config.formatter, update.formatter));
      config := config.(compiler := MergeSection(config.compiler, update.compiler));
      assert config == Merge(previous, update);
      LoadKeepsWellFormed(previous, fetched.value);
      LogStep(ConfigMerged(duringUp));
      ok := true;
    }

    /** Records one call into a collaborator. */
    ghost method LogStep(s: Step)
      requires Valid()
      requires Required(s).Some? ==> |trace| > 0 && trace[|trace| - 1] == Required(s).value
      requires s.Published? ==> handlersSubscribed
      requires s == WaitingProcessed ==> configLoaded
      modifies this`trace
      ensures Valid()
      ensures trace == old(trace) + [s]
      ensures PublishLog() == old(PublishLog()) + (if s.Published? then [s.uri] else [])
      ensures FlushCount() == old(FlushCount()) + (if s == WaitingProcessed then 1 else 0)
    {
      Snoc(trace, s);
      trace := trace + [s];
    }

    /** The callback up registers: a configuration change reloads the
        configuration, without touching `configLoaded`. */
    method ConfigurationChanged(fetched: Option<Record>)
      requires Valid()
      modifies this`config, this`trace
      ensures Valid()
      ensures config == if configListenerRegistered && fetched.Some?
                        then Merge(old(config), FromRecord(fetched.value)) else old(config)
      ensures trace == old(trace) + (if configListenerRegistered && fetched.Some? then [ConfigMerged(false)] else [])
    {
      if configListenerRegistered {
        var _ := LoadConfig(fetched, false);
      }
    }

    /** The will-save handler: a will-save event re-tokenizes the saved text when
        the tokenizer is set; no other entry changes. */
    method WillSave(uri: Uri, text: Text)
      requires Valid()
      modifies this`documents
      ensures Valid()
      ensures documents == if handlersSubscribed && tokenizer.Some?
                           then old(documents)[uri := Tokenize(tokenizer.value, text)]
                           else old(documents)
    {
      if handlersSubscribed {
        if tokenizer.Some? {
          documents := documents[uri := Tokenize(tokenizer.value, text)];
        }
      }
    }

    /** The did-save handler: a did-save event requests one publish and leaves the
        documents alone. */
    method DidSave(uri: Uri)
      requires Valid()
      modifies this`trace
      ensures Valid()
      ensures trace == old(trace) + (if handlersSubscribed && diagnosticsProvider.Some? then [Published(uri)] else [])
      ensures PublishLog() == old(PublishLog()) + (if handlersSubscribed && diagnosticsProvider.Some? then [uri] else [])
    {
      if handlersSubscribed {
        Publish(uri);
      }
    }

    /** The did-open handler: a did-open event creates the entry from the full
        text when the tokenizer is set, then requests one publish. */
    method DidOpen(uri: Uri, text: Text)
      requires Valid()
      modifies this`documents, this`trace
      ensures Valid()
      ensures documents == if handlersSubscribed && tokenizer.Some?
                           then old(documents)[uri := Tokenize(tokenizer.value, text)]
                           else old(documents)
      ensures trace == old(trace) + (if handlersSubscribed && diagnosticsProvider.Some? then [Published(uri)] else [])
      ensures PublishLog() == old(PublishLog()) + (if handlersSubscribed && diagnosticsProvider.Some? then [uri] else [])
    {
      if handlersSubscribed {
        if tokenizer.Some? {
          documents := documents[uri := Tokenize(tokenizer.value, text)];
        }
        Publish(uri);
      }
    }

    /** A handler asks the diagnostics provider, if there is one, to
        publish the uri. */
    method Publish(uri: Uri)
      requires Valid() && handlersSubscribed
      modifies this`trace
      ensures Valid()
      ensures trace == old(trace) + (if diagnosticsProvider.Some? then [Published(uri)] else [])
      ensures PublishLog() == old(PublishLog()) + (if diagnosticsProvider.Some? then [uri] else [])
    {
      if diagnosticsProvider.Some? {
        LogStep(Published(uri));
      }
    }
  }

  /** A document opened before `initialize` completes is ignored, since
      no handler is attached yet; opened afterwards it is tokenized with
      the loaded grammar and published once if a diagnostics provider was
      registered. */
  method OpenAroundInitialize(defaults: Config, grammar: Tokenizer, registered: Option<DiagnosticsProvider>,
                              uri: Uri, text: Text)
    returns (before: map<Uri, Tokens>, after: map<Uri, Tokens>, ghost published: seq<Uri>)
    requires WellFormed(defaults)
    ensures before == map[]
    ensures after == map[uri := Tokenize(grammar, text)]
    ensures published == if registered.Some? then [uri] else []
  {
    var server := new ServerManager(true, defaults);
    server.DidOpen(uri, text);
    before := server.documents;
    var _ := server.Initialize(Some(grammar), registered);
    server.DidOpen(uri, text);
    after := server.documents;
    published := server.PublishLog();
  }

  /** A configuration change after `up` is merged only when the client
      supports pulling the configuration, since only then is the
      callback registered. */
  method ChangeAfterUp(supports: bool, defaults: Config, first: Record, later: Record)
    returns (afterUp: Config, afterChange: Config)
    requires WellFormed(defaults)
    ensures afterUp == Merge(defaults, FromRecord(first))
    ensures afterChange == if supports then Merge(afterUp, FromRecord(later)) else afterUp
  {
    var server := new ServerManager(supports, defaults);
    var _ := server.Up(Some(first));
    afterUp := server.config;
    server.ConfigurationChanged(Some(later));
    afterChange := server.config;
  }
}

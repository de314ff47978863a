/** The language server's configuration and the shallow merge that
    `ServerManger.loadConfig` applies to it.

    A configuration is a JSON-like object under the namespace
    "nwscript-ee-lsp". Four of its top-level keys name structured
    sub-sections (`completion`, `hovering`, `formatter`, `compiler`);
    every other top-level key is a free-form option. */
module Configuration {
  import opened Wrappers

  /** A JSON value as the client reports it (numbers are abstracted to integers). */
  datatype Value =
    | Null
    | Bool(b: bool)
    | Number(n: int)
    | Str(s: string)
    | Array(items: seq<Value>)
    | Object(fields: map<string, Value>)

  /** One sub-section: a flat object of option name to value. */
  type Section = map<string, Value>

  /** The object the client's configuration fetch resolves to, and the
      session's configuration seen as one JavaScript object. */
  type Record = map<string, Value>

  /** The four structured sub-sections. */
  datatype SectionName = Completion | Hovering | Formatter | Compiler

  /** The top-level key under which a sub-section is stored. */
  function KeyOf(n: SectionName): (k: string)
    ensures k in SectionKeys
  {
    match n
    case Completion => "completion"
    case Hovering => "hovering"
    case Formatter => "formatter"
    case Compiler => "compiler"
  }

  const SectionKeys: set<string> := {"completion", "hovering", "formatter", "compiler"}

  /** The effective configuration, with the sub-sections held apart from
      the remaining top-level options. */
  datatype Config = Config(
    top: map<string, Value>,
    completion: Section,
    hovering: Section,
    formatter: Section,
    compiler: Section)

  /** The free-form options never use a sub-section's key. */
  predicate WellFormed(c: Config) {
    c.top.Keys !! SectionKeys
  }

  function Get(c: Config, n: SectionName): Section {
    match n
    case Completion => c.completion
    case Hovering => c.hovering
    case Formatter => c.formatter
    case Compiler => c.compiler
  }

  /** A fetched configuration after destructuring: the remaining options
      `rest`, and each sub-section if the client reported one. */
  datatype Update = Update(
    rest: map<string, Value>,
    completion: Option<Section>,
    hovering: Option<Section>,
    formatter: Option<Section>,
    compiler: Option<Section>)

  function UpdateOf(u: Update, n: SectionName): Option<Section> {
    match n
    case Completion => u.completion
    case Hovering => u.hovering
    case Formatter => u.formatter
    case Compiler => u.compiler
  }

  /** The sub-section the destructuring takes out under `key`: the
      fields of the object stored there, if there is one. */
  function SectionOf(raw: Record, key: string): Option<Section> {
    if key in raw && raw[key].Object? then Some(raw[key].fields) else None
  }

  /** loadConfig's destructuring: the four sub-sections are taken out of
      the fetched object, and `rest` keeps every other key. */
  function FromRecord(raw: Record): Update {
    Update(raw - SectionKeys,
      SectionOf(raw, "completion"), SectionOf(raw, "hovering"),
      SectionOf(raw, "formatter"), SectionOf(raw, "compiler"))
  }

  /** The object a reported update stands for: the inverse of FromRecord. */
  function ToRecord(u: Update): Record {
    var withCompletion := Put(u.rest, "completion", u.completion);
    var withHovering := Put(withCompletion, "hovering", u.hovering);
    var withFormatter := Put(withHovering, "formatter", u.formatter);
    Put(withFormatter, "compiler", u.compiler)
  }

  function Put(r: Record, key: string, s: Option<Section>): Record {
    match s
    case None => r
    case Some(fields) => r[key := Object(fields)]
  }

  /** The spread merge of one sub-section: keys the update sets take
      its value, every other key keeps its previous value. */
  function MergeSection(prev: Section, upd: Option<Section>): Section {
    match upd
    case None => prev
    case Some(fields) => prev + fields
  }

  /** loadConfig's merge: the free-form options are merged onto the top level
      and each sub-section onto its previous value. */
  function Merge(c: Config, u: Update): Config {
    Config(c.top + u.rest,
      MergeSection(c.completion, u.completion),
      MergeSection(c.hovering, u.hovering),
      MergeSection(c.formatter, u.formatter),
      MergeSection(c.compiler, u.compiler))
  }

  /** The update equivalent to applying `first` and then `second`. */
  function Then(first: Update, second: Update): Update {
    Update(first.rest + second.rest,
      ThenSection(first.completion, second.completion),
      ThenSection(first.hovering, second.hovering),
      ThenSection(first.formatter, second.formatter),
      ThenSection(first.compiler, second.compiler))
  }

  function ThenSection(first: Option<Section>, second: Option<Section>): Option<Section> {
    match (first, second)
    case (None, _) => second
    case (Some(a), None) => first
    case (Some(a), Some(b)) => Some(a + b)
  }

  // ---------------------------------------------------------------------
  // The configuration as one JavaScript object, and loadConfig as written
  // ---------------------------------------------------------------------

  /** The configuration as one object: the sub-sections are objects under their keys. */
  function Flatten(c: Config): Record {
    c.top + map[
      "completion" := Object(c.completion),
      "hovering" := Object(c.hovering),
      "formatter" := Object(c.formatter),
      "compiler" := Object(c.compiler)]
  }

  /** Spreading the value under `key`: the fields of an object, nothing
      for null or a missing key. */
  function Spread(obj: Record, key: string): Section {
    if key in obj && obj[key].Object? then obj[key].fields else map[]
  }

  /** One sub-section assignment of loadConfig on the flat object. */
  function AssignSection(config: Record, raw: Record, key: string): Record {
    config[key := Object(Spread(config, key) + Spread(raw, key))]
  }

  /** loadConfig read literally on JavaScript objects: one top-level
      spread, then the four sub-section assignments in order. */
  function LoadFlat(config: Record, raw: Record): Record {
    var spread := config + (raw - SectionKeys);
    var withCompletion := AssignSection(spread, raw, "completion");
    var withHovering := AssignSection(withCompletion, raw, "hovering");
    var withFormatter := AssignSection(withHovering, raw, "formatter");
    AssignSection(withFormatter, raw, "compiler")
  }

  // ---------------------------------------------------------------------
  // Properties of the merge
  // ---------------------------------------------------------------------

  /** The destructuring takes the four sub-sections out of `rest`, keeps
      every other key with its value, and reports a sub-section exactly
      when the client sent an object for it. */
  lemma FromRecordSpec(raw: Record)
    ensures FromRecord(raw).rest.Keys !! SectionKeys
    ensures forall k :: k in raw && k !in SectionKeys <==> k in FromRecord(raw).rest
    ensures forall k :: k in FromRecord(raw).rest ==> FromRecord(raw).rest[k] == raw[k]
    ensures forall n :: UpdateOf(FromRecord(raw), n) == SectionOf(raw, KeyOf(n))
  {
  }

  /** A sub-section after the merge: keys the update sets take its value,
      every other key keeps its previous value, and an absent update
      changes nothing. */
  lemma MergeSectionSpec(prev: Section, upd: Option<Section>)
    ensures upd.None? ==> MergeSection(prev, upd) == prev
    ensures MergeSection(prev, upd).Keys == prev.Keys + (if upd.Some? then upd.value.Keys else {})
    ensures forall k :: k in MergeSection(prev, upd) ==>
              MergeSection(prev, upd)[k] == if upd.Some? && k in upd.value then upd.value[k] else prev[k]
  {
  }

  /** The top level after the merge: keys of `rest` take its value, every
      other option keeps its value; each sub-section is merged on its own,
      from its own previous value and its own update only. */
  lemma MergeSpec(c: Config, u: Update)
    ensures Merge(c, u).top.Keys == c.top.Keys + u.rest.Keys
    ensures forall k :: k in Merge(c, u).top ==>
              Merge(c, u).top[k] == if k in u.rest then u.rest[k] else c.top[k]
    ensures forall n :: Get(Merge(c, u), n) == MergeSection(Get(c, n), UpdateOf(u, n))
  {
    var top := Merge(c, u).top;
    assert top == c.top + u.rest;
    forall n
      ensures Get(Merge(c, u), n) == MergeSection(Get(c, n), UpdateOf(u, n))
    {
      match n
      case Completion =>
      case Hovering =>
      case Formatter =>
      case Compiler =>
    }
  }

  /** A load keeps the free-form options apart from the sub-section keys. */
  lemma LoadKeepsWellFormed(c: Config, raw: Record)
    requires WellFormed(c)
    ensures WellFormed(Merge(c, FromRecord(raw)))
  {
  }

  /** Storing a sub-section under its key is what destructuring that key
      then gives back; storing none leaves what was there. */
  lemma SectionOfPut(r: Record, key: string, s: Option<Section>)
    ensures SectionOf(Put(r, key, s), key) == if s.Some? then s else SectionOf(r, key)
  {
  }

  /** Destructuring then re-assembling a reported update gives it back. */
  lemma FromRecordToRecord(u: Update)
    requires u.rest.Keys !! SectionKeys
    ensures FromRecord(ToRecord(u)) == u
  {
    var raw := ToRecord(u);
    assert raw - SectionKeys == u.rest;
  }

  /** The structured merge agrees with the literal object spreads of the
      source: in particular the top-level spread of `rest` cannot touch a
      sub-section, because `rest` has none of their keys. */
  lemma LoadFlatAgrees(c: Config, raw: Record)
    requires WellFormed(c)
    ensures LoadFlat(Flatten(c), raw) == Flatten(Merge(c, FromRecord(raw)))
  {
    MergeRecord(c, raw);
    FlatSpread(c, raw);
  }

  /** The sub-sections and options of `c` with the spreads of `raw` laid over them. */
  function SpreadOnto(c: Config, raw: Record): Config {
    Config(c.top + (raw - SectionKeys),
      c.completion + Spread(raw, "completion"), c.hovering + Spread(raw, "hovering"),
      c.formatter + Spread(raw, "formatter"), c.compiler + Spread(raw, "compiler"))
  }

  lemma MergeRecord(c: Config, raw: Record)
    ensures Merge(c, FromRecord(raw)) == SpreadOnto(c, raw)
  {
    SpreadMerges(c.completion, raw, "completion");
    SpreadMerges(c.hovering, raw, "hovering");
    SpreadMerges(c.formatter, raw, "formatter");
    SpreadMerges(c.compiler, raw, "compiler");
  }

  lemma FlatSpread(c: Config, raw: Record)
    requires WellFormed(c)
    ensures LoadFlat(Flatten(c), raw) == Flatten(SpreadOnto(c, raw))
  {
    var spread := Flatten(c) + (raw - SectionKeys);
    AssignmentsIndependent(spread, raw);
    FlattenSpread(c, raw - SectionKeys);
    var m := SpreadOnto(c, raw);
    var result := m.top + map[
      "completion" := Object(m.completion),
      "hovering" := Object(m.hovering),
      "formatter" := Object(m.formatter),
      "compiler" := Object(m.compiler)];
    assert result == Flatten(m);
  }

  /** Spreading options that are not sub-section keys onto the flat
      object leaves every sub-section where it was ... */
  lemma FlattenSpread(c: Config, extra: Record)
    requires WellFormed(c) && extra.Keys !! SectionKeys
    ensures Spread(Flatten(c) + extra, "completion") == c.completion
    ensures Spread(Flatten(c) + extra, "hovering") == c.hovering
    ensures Spread(Flatten(c) + extra, "formatter") == c.formatter
    ensures Spread(Flatten(c) + extra, "compiler") == c.compiler
    ensures (Flatten(c) + extra) - SectionKeys == c.top + extra
  {
    var flat := Flatten(c) + extra;
    assert "completion" !in extra && flat["completion"] == Object(c.completion);
    assert "hovering" !in extra && flat["hovering"] == Object(c.hovering);
    assert "formatter" !in extra && flat["formatter"] == Object(c.formatter);
    assert "compiler" !in extra && flat["compiler"] == Object(c.compiler);
    FlattenOptions(c, extra);
  }

  /** ... and removing the sub-section keys again gives the options. */
  lemma FlattenOptions(c: Config, extra: Record)
    requires WellFormed(c) && extra.Keys !! SectionKeys
    ensures (Flatten(c) + extra) - SectionKeys == c.top + extra
  {
    var lhs := (Flatten(c) + extra) - SectionKeys;
    forall k
      ensures k in lhs <==> k in c.top + extra
      ensures k in lhs ==> lhs[k] == (c.top + extra)[k]
    {
    }
    assert lhs == c.top + extra;
  }

  /** The four sub-section assignments each read and write a different key, so in sequence
      they act as one simultaneous update of the four keys. */
  lemma AssignmentsIndependent(spread: Record, raw: Record)
    ensures var withCompletion := AssignSection(spread, raw, "completion");
            var withHovering := AssignSection(withCompletion, raw, "hovering");
            var withFormatter := AssignSection(withHovering, raw, "formatter");
            AssignSection(withFormatter, raw, "compiler") ==
            spread - SectionKeys + map[
              "completion" := Object(Spread(spread, "completion") + Spread(raw, "completion")),
              "hovering" := Object(Spread(spread, "hovering") + Spread(raw, "hovering")),
              "formatter" := Object(Spread(spread, "formatter") + Spread(raw, "formatter")),
              "compiler" := Object(Spread(spread, "compiler") + Spread(raw, "compiler"))]
  {
    var withCompletion := AssignSection(spread, raw, "completion");
    var withHovering := AssignSection(withCompletion, raw, "hovering");
    var withFormatter := AssignSection(withHovering, raw, "formatter");
    AssignOther(spread, raw, "completion", "hovering");
    AssignOther(withCompletion, raw, "hovering", "formatter");
    AssignOther(spread, raw, "completion", "formatter");
    AssignOther(withHovering, raw, "formatter", "compiler");
    AssignOther(withCompletion, raw, "hovering", "compiler");
    AssignOther(spread, raw, "completion", "compiler");
    var result := AssignSection(withFormatter, raw, "compiler");
    var simultaneous := spread - SectionKeys + map[
              "completion" := Object(Spread(spread, "completion") + Spread(raw, "completion")),
              "hovering" := Object(Spread(spread, "hovering") + Spread(raw, "hovering")),
              "formatter" := Object(Spread(spread, "formatter") + Spread(raw, "formatter")),
              "compiler" := Object(Spread(spread, "compiler") + Spread(raw, "compiler"))];
    forall k
      ensures k in result <==> k in simultaneous
      ensures k in result ==> result[k] == simultaneous[k]
    {
    }
    assert result == simultaneous;
  }

  /** Assigning one key leaves the spread of every other key alone. */
  lemma AssignOther(config: Record, raw: Record, key: string, other: string)
    requires key != other
    ensures Spread(AssignSection(config, raw, key), other) == Spread(config, other)
  {
  }

  /** Spreading a possibly absent object onto a sub-section is MergeSection. */
  lemma SpreadMerges(prev: Section, raw: Record, key: string)
    ensures MergeSection(prev, SectionOf(raw, key)) == prev + Spread(raw, key)
  {
    if SectionOf(raw, key).None? {
      assert prev + map[] == prev;
    }
  }

  /** An update lacking a sub-section leaves that sub-section as it was,
      whatever else it carries. */
  lemma AbsentSectionUnchanged(c: Config, raw: Record, n: SectionName)
    requires KeyOf(n) !in raw || !raw[KeyOf(n)].Object?
    ensures Get(Merge(c, FromRecord(raw)), n) == Get(c, n)
  {
  }

  /** Applying the same update twice is the same as applying it once. */
  lemma MergeIdempotent(c: Config, u: Update)
    ensures Merge(Merge(c, u), u) == Merge(c, u)
  {
  }

  /** Two successive loads equal one load of the combined update. */
  lemma MergeThen(c: Config, first: Update, second: Update)
    ensures Merge(Merge(c, first), second) == Merge(c, Then(first, second))
  {
    OverrideAssociative(c.top, first.rest, second.rest);
    MergeSectionThen(c.completion, first.completion, second.completion);
    MergeSectionThen(c.hovering, first.hovering, second.hovering);
    MergeSectionThen(c.formatter, first.formatter, second.formatter);
    MergeSectionThen(c.compiler, first.compiler, second.compiler);
  }

  lemma OverrideAssociative(a: map<string, Value>, b: map<string, Value>, c: map<string, Value>)
    ensures (a + b) + c == a + (b + c)
  {
  }

  lemma MergeSectionThen(prev: Section, first: Option<Section>, second: Option<Section>)
    ensures MergeSection(MergeSection(prev, first), second) == MergeSection(prev, ThenSection(first, second))
  {
    if first.Some? && second.Some? {
      assert (prev + first.value) + second.value == prev + (first.value + second.value);
    }
  }

  /** After loads L1 then L2, a sub-section key takes L2's value where L2
      sets it, else L1's, else the earlier value. */
  lemma LaterLoadWins(c: Config, first: Update, second: Update, n: SectionName, k: string)
    requires k in Get(c, n) || (UpdateOf(first, n).Some? && k in UpdateOf(first, n).value)
                            || (UpdateOf(second, n).Some? && k in UpdateOf(second, n).value)
    ensures k in Get(Merge(Merge(c, first), second), n)
    ensures Get(Merge(Merge(c, first), second), n)[k] ==
      if UpdateOf(second, n).Some? && k in UpdateOf(second, n).value then UpdateOf(second, n).value[k]
      else if UpdateOf(first, n).Some? && k in UpdateOf(first, n).value then UpdateOf(first, n).value[k]
      else Get(c, n)[k]
  {
    MergeSpec(c, first);
    MergeSpec(Merge(c, first), second);
    MergeSectionSpec(Get(c, n), UpdateOf(first, n));
    MergeSectionSpec(Get(Merge(c, first), n), UpdateOf(second, n));
  }

  /** Two updates that touch disjoint keys may be applied in either order. */
  lemma DisjointUpdatesCommute(c: Config, first: Update, second: Update)
    requires first.rest.Keys !! second.rest.Keys
    requires forall n :: UpdateOf(first, n).Some? && UpdateOf(second, n).Some? ==>
               UpdateOf(first, n).value.Keys !! UpdateOf(second, n).value.Keys
    ensures Merge(Merge(c, first), second) == Merge(Merge(c, second), first)
  {
    assert (c.top + first.rest) + second.rest == (c.top + second.rest) + first.rest;
    assert UpdateOf(first, Completion) == first.completion;
    DisjointSectionsCommute(c.completion, first.completion, second.completion);
    assert UpdateOf(first, Hovering) == first.hovering;
    DisjointSectionsCommute(c.hovering, first.hovering, second.hovering);
    assert UpdateOf(first, Formatter) == first.formatter;
    DisjointSectionsCommute(c.formatter, first.formatter, second.formatter);
    assert UpdateOf(first, Compiler) == first.compiler;
    DisjointSectionsCommute(c.compiler, first.compiler, second.compiler);
  }

  lemma DisjointSectionsCommute(prev: Section, first: Option<Section>, second: Option<Section>)
    requires first.Some? && second.Some? ==> first.value.Keys !! second.value.Keys
    ensures MergeSection(MergeSection(prev, first), second) == MergeSection(MergeSection(prev, second), first)
  {
    if first.Some? && second.Some? {
      assert (prev + first.value) + second.value == (prev + second.value) + first.value;
    }
  }

  /** Load L1 reports `compiler.strict = true`, load L2 reports
      `compiler.warnings = false`: both survive in the compiler section. */
  lemma StrictAndWarningsSurvive(c: Config)
    ensures var first := FromRecord(map["compiler" := Object(map["strict" := Bool(true)])]);
            var second := FromRecord(map["compiler" := Object(map["warnings" := Bool(false)])]);
            var r := Merge(Merge(c, first), second).compiler;
            "strict" in r && r["strict"] == Bool(true) && "warnings" in r && r["warnings"] == Bool(false)
  {
    var strict := map["strict" := Bool(true)];
    var warnings := map["warnings" := Bool(false)];
    assert SectionOf(map["compiler" := Object(strict)], "compiler") == Some(strict);
    assert SectionOf(map["compiler" := Object(warnings)], "compiler") == Some(warnings);
    assert Merge(Merge(c, FromRecord(map["compiler" := Object(strict)])),
                 FromRecord(map["compiler" := Object(warnings)])).compiler == (c.compiler + strict) + warnings;
  }
}

/** The guard record of one document: its 26 fields are streamed into the hash one by one, and the
    stream is the typed encoding of the record, which determines it. */
module GuardRecord {
  import opened Framing
  import D = Decimal
  import Digest

  datatype Binding = Binding(api: nat, name: string)

  datatype Property = Property(className: string, hint: nat, hintString: string, name: string, kind: nat, usage: nat)

  datatype Level = Level(key: string, level: nat)

  datatype Record = Record(
    autoloads: seq<string>, bindings: seq<Binding>, buffer: nat, dirty: bool, editor: nat, external: bool,
    globals: seq<string>, redo: bool, undo: bool, methods: seq<string>, path: string, device: nat, inode: nat, root: string,
    properties: seq<Property>, request: string, edited: bool, saved: nat, script: nat, session: string, length: nat,
    sha: string, tool: bool, version: nat, rules: seq<Level>, warnings: bool, levels: seq<Level>)

  function Names(names: seq<string>): seq<Value> {
    seq(|names|, i requires 0 <= i < |names| => Text(names[i]))
  }

  function BindingFields(b: Binding): seq<Field> {
    [Field("api_type", Natural(b.api)), Field("name", Text(b.name))]
  }

  function Bindings(bindings: seq<Binding>): seq<Value> {
    seq(|bindings|, i requires 0 <= i < |bindings| => Entries(BindingFields(bindings[i])))
  }

  function PropertyFields(p: Property): seq<Field> {
    [Field("class_name", Text(p.className)), Field("hint", Natural(p.hint)), Field("hint_string", Text(p.hintString)),
     Field("name", Text(p.name)), Field("type", Natural(p.kind)), Field("usage", Natural(p.usage))]
  }

  function Properties(properties: seq<Property>): seq<Value> {
    seq(|properties|, i requires 0 <= i < |properties| => Entries(PropertyFields(properties[i])))
  }

  function LevelFields(levels: seq<Level>): seq<Field> {
    seq(|levels|, i requires 0 <= i < |levels| => Field(levels[i].key, Natural(levels[i].level)))
  }

  function WarningFields(r: Record): seq<Field> {
    [Field("directory_rules", Entries(LevelFields(r.rules))), Field("enable", Flag(r.warnings)),
     Field("levels", Entries(LevelFields(r.levels)))]
  }

  function Counter(n: nat): Value {
    Text(D.Digits(n))
  }

  function Editing(r: Record): seq<Field> {
    [Field("autoloads", Items(Names(r.autoloads))), Field("bindings", Items(Bindings(r.bindings))),
     Field("buffer_id", Counter(r.buffer)), Field("dirty", Flag(r.dirty)), Field("editor_id", Counter(r.editor)),
     Field("external_editor", Flag(r.external)), Field("global_classes", Items(Names(r.globals))),
     Field("has_redo", Flag(r.redo)), Field("has_undo", Flag(r.undo))]
  }

  function Project(r: Record): seq<Field> {
    [Field("methods", Items(Names(r.methods))), Field("path", Text(r.path)), Field("project_device", Counter(r.device)),
     Field("project_inode", Counter(r.inode)), Field("project_root", Text(r.root)),
     Field("properties", Items(Properties(r.properties))), Field("request_id", Text(r.request)),
     Field("resource_edited", Flag(r.edited)), Field("saved_version", Counter(r.saved))]
  }

  function Source(r: Record): seq<Field> {
    [Field("script_base_id", Text("0")), Field("script_id", Counter(r.script)), Field("session_id", Text(r.session)),
     Field("source_length", Counter(r.length)), Field("source_sha256", Text(r.sha)), Field("tool", Flag(r.tool)),
     Field("version", Counter(r.version)), Field("warnings", Entries(WarningFields(r)))]
  }

  /** The fields in the order in which they are streamed. */
  function RecordFields(r: Record): seq<Field> {
    Editing(r) + Project(r) + Source(r)
  }

  const DOMAIN := "godot-agent-kit/open-context/v1"

  /** The typed encoding of the whole record behind its domain. */
  function GuardBytes(r: Record): string {
    Frame(DOMAIN) + Bytes(Entries(RecordFields(r)))
  }

  // ---- the record is determined by its fields ----

  lemma NamesInjective(a: seq<string>, b: seq<string>)
    requires Names(a) == Names(b)
    ensures a == b
  {
    assert |Names(a)| == |a| && |Names(b)| == |b|;
    forall i | 0 <= i < |a| ensures a[i] == b[i] { assert Names(a)[i] == Names(b)[i]; }
  }

  lemma BindingsInjective(a: seq<Binding>, b: seq<Binding>)
    requires Bindings(a) == Bindings(b)
    ensures a == b
  {
    assert |Bindings(a)| == |a| && |Bindings(b)| == |b|;
    forall i | 0 <= i < |a| ensures a[i] == b[i] {
      var x, y := Bindings(a)[i].entries, Bindings(b)[i].entries;
      assert x[0] == y[0] && x[1] == y[1];
    }
  }

  lemma PropertiesInjective(a: seq<Property>, b: seq<Property>)
    requires Properties(a) == Properties(b)
    ensures a == b
  {
    assert |Properties(a)| == |a| && |Properties(b)| == |b|;
    forall i | 0 <= i < |a| ensures a[i] == b[i] {
      var x, y := Properties(a)[i].entries, Properties(b)[i].entries;
      assert x[0] == y[0] && x[1] == y[1] && x[2] == y[2] && x[3] == y[3] && x[4] == y[4] && x[5] == y[5];
    }
  }

  lemma LevelsInjective(a: seq<Level>, b: seq<Level>)
    requires LevelFields(a) == LevelFields(b)
    ensures a == b
  {
    assert |LevelFields(a)| == |a| && |LevelFields(b)| == |b|;
    forall i | 0 <= i < |a| ensures a[i] == b[i] { assert LevelFields(a)[i] == LevelFields(b)[i]; }
  }

  lemma EditingInjective(a: Record, b: Record)
    requires Editing(a) == Editing(b)
    ensures a.autoloads == b.autoloads && a.bindings == b.bindings && a.buffer == b.buffer && a.dirty == b.dirty && a.editor == b.editor
    ensures a.external == b.external && a.globals == b.globals && a.redo == b.redo && a.undo == b.undo
  {
    hide Names, Bindings;
    var x, y := Editing(a), Editing(b);
    assert x[0].value == y[0].value && x[1].value == y[1].value && x[2].value == y[2].value && x[3].value == y[3].value;
    assert x[4].value == y[4].value && x[5].value == y[5].value && x[6].value == y[6].value && x[7].value == y[7].value;
    assert x[8].value == y[8].value;
    NamesInjective(a.autoloads, b.autoloads);
    BindingsInjective(a.bindings, b.bindings);
    NamesInjective(a.globals, b.globals);
    D.DigitsInjective(a.buffer, b.buffer);
    D.DigitsInjective(a.editor, b.editor);
  }

  lemma ProjectInjective(a: Record, b: Record)
    requires Project(a) == Project(b)
    ensures a.methods == b.methods && a.path == b.path && a.device == b.device && a.inode == b.inode && a.root == b.root
    ensures a.properties == b.properties && a.request == b.request && a.edited == b.edited && a.saved == b.saved
  {
    hide Names, Properties;
    var x, y := Project(a), Project(b);
    assert x[0].value == y[0].value && x[1].value == y[1].value && x[2].value == y[2].value && x[3].value == y[3].value;
    assert x[4].value == y[4].value && x[5].value == y[5].value && x[6].value == y[6].value && x[7].value == y[7].value;
    assert x[8].value == y[8].value;
    NamesInjective(a.methods, b.methods);
    PropertiesInjective(a.properties, b.properties);
    D.DigitsInjective(a.device, b.device);
    D.DigitsInjective(a.inode, b.inode);
    D.DigitsInjective(a.saved, b.saved);
  }

  lemma SourceInjective(a: Record, b: Record)
    requires Source(a) == Source(b)
    ensures a.script == b.script && a.session == b.session && a.length == b.length && a.sha == b.sha && a.tool == b.tool
    ensures a.version == b.version && a.rules == b.rules && a.warnings == b.warnings && a.levels == b.levels
  {
    hide LevelFields;
    var x, y := Source(a), Source(b);
    assert x[1].value == y[1].value && x[2].value == y[2].value && x[3].value == y[3].value && x[4].value == y[4].value;
    assert x[5].value == y[5].value && x[6].value == y[6].value && x[7].value == y[7].value;
    var u, v := WarningFields(a), WarningFields(b);
    assert u[0].value == v[0].value && u[1].value == v[1].value && u[2].value == v[2].value;
    LevelsInjective(a.rules, b.rules);
    LevelsInjective(a.levels, b.levels);
    D.DigitsInjective(a.script, b.script);
    D.DigitsInjective(a.length, b.length);
    D.DigitsInjective(a.version, b.version);
  }

  lemma PartLengths(r: Record)
    ensures |Editing(r)| == 9 && |Project(r)| == 9 && |Source(r)| == 8
  {
  }

  lemma FieldsInjective(a: Record, b: Record)
    requires RecordFields(a) == RecordFields(b)
    ensures a == b
  {
    PartLengths(a);
    PartLengths(b);
    assert RecordFields(a)[..9] == Editing(a) && RecordFields(b)[..9] == Editing(b);
    assert RecordFields(a)[9..18] == Project(a) && RecordFields(b)[9..18] == Project(b);
    assert RecordFields(a)[18..] == Source(a) && RecordFields(b)[18..] == Source(b);
    hide Editing, Project, Source, RecordFields;
    EditingInjective(a, b);
    ProjectInjective(a, b);
    SourceInjective(a, b);
  }

  // ---- the stream is in key order ----

  /** A value whose dictionaries all list their keys in order. */
  ghost predicate Ordered(v: Value) {
    match v
    case Items(items) => forall i | 0 <= i < |items| :: Ordered(items[i])
    case Entries(entries) => Sorted(entries) && forall i | 0 <= i < |entries| :: Ordered(entries[i].value)
    case _ => true
  }

  /** Such a value is its own normal form. */
  lemma {:induction false} NormalOfOrdered(v: Value)
    requires Ordered(v)
    ensures Normal(v) == v
  {
    match v
    case Items(items) =>
      forall i | 0 <= i < |items|
        ensures Normal(items[i]) == items[i]
      {
        NormalOfOrdered(items[i]);
      }
      assert NormalAll(items) == items;
    case Entries(entries) =>
      forall i | 0 <= i < |entries|
        ensures Normal(entries[i].value) == entries[i].value
      {
        NormalOfOrdered(entries[i].value);
      }
      assert NormalFields(entries) == entries;
      SortedDistinct(entries);
      SortSorts(entries);
      SortedUnique(Sort(entries), entries);
    case _ =>
  }

  ghost predicate Rising(fields: seq<Field>) {
    forall i | 0 <= i < |fields| - 1 :: Before(fields[i].key, fields[i + 1].key)
  }

  lemma {:induction false} RisingBetween(fields: seq<Field>, i: nat, j: nat)
    requires Rising(fields) && i < j < |fields|
    ensures Before(fields[i].key, fields[j].key)
    decreases j
  {
    if i < j - 1 {
      RisingBetween(fields, i, j - 1);
      BeforeTransitive(fields[i].key, fields[j - 1].key, fields[j].key);
    }
  }

  lemma RisingSorted(fields: seq<Field>)
    requires Rising(fields)
    ensures Sorted(fields)
  {
    forall i, j | 0 <= i < j < |fields|
      ensures Before(fields[i].key, fields[j].key)
    {
      RisingBetween(fields, i, j);
    }
  }

  lemma {:induction false} BeforePrefix(p: string, a: string, b: string)
    requires Before(a, b)
    ensures Before(p + a, p + b)
  {
    if p == "" {
      assert p + a == a && p + b == b;
    } else {
      BeforePrefix(p[1..], a, b);
      assert (p + a)[1..] == p[1..] + a && (p + b)[1..] == p[1..] + b;
    }
  }

  /** Two keys with the same front are ordered by what follows it. */
  lemma Next(front: string, a: string, b: string)
    requires b != "" && (a == "" || a[0] < b[0])
    ensures Before(front + a, front + b)
  {
    BeforePrefix(front, a, b);
  }

  lemma EditingKeys()
    ensures Before("autoloads", "bindings") && Before("bindings", "buffer_id") && Before("buffer_id", "dirty")
    ensures Before("dirty", "editor_id")
  {
    hide Before;
    Next("", "autoloads", "bindings");
    assert "" + "autoloads" == "autoloads" && "" + "bindings" == "bindings";
    Next("b", "indings", "uffer_id");
    assert "b" + "indings" == "bindings" && "b" + "uffer_id" == "buffer_id";
    Next("", "buffer_id", "dirty");
    assert "" + "buffer_id" == "buffer_id" && "" + "dirty" == "dirty";
    Next("", "dirty", "editor_id");
    assert "" + "dirty" == "dirty" && "" + "editor_id" == "editor_id";
  }

  lemma EditorKeys()
    ensures Before("editor_id", "external_editor") && Before("external_editor", "global_classes") && Before("global_classes", "has_redo")
    ensures Before("has_redo", "has_undo")
  {
    hide Before;
    Next("e", "ditor_id", "xternal_editor");
    assert "e" + "ditor_id" == "editor_id" && "e" + "xternal_editor" == "external_editor";
    Next("", "external_editor", "global_classes");
    assert "" + "external_editor" == "external_editor" && "" + "global_classes" == "global_classes";
    Next("", "global_classes", "has_redo");
    assert "" + "global_classes" == "global_classes" && "" + "has_redo" == "has_redo";
    Next("has_", "redo", "undo");
    assert "has_" + "redo" == "has_redo" && "has_" + "undo" == "has_undo";
  }

  lemma ProjectKeys()
    ensures Before("methods", "path") && Before("path", "project_device")
  {
    hide Before;
    Next("", "methods", "path");
    assert "" + "methods" == "methods" && "" + "path" == "path";
    Next("p", "ath", "roject_device");
    assert "p" + "ath" == "path" && "p" + "roject_device" == "project_device";
  }

  lemma RootKeys()
    ensures Before("project_device", "project_inode") && Before("project_inode", "project_root") && Before("project_root", "properties")
  {
    hide Before;
    Next("project_", "device", "inode");
    assert "project_" + "device" == "project_device" && "project_" + "inode" == "project_inode";
    Next("project_", "inode", "root");
    assert "project_" + "inode" == "project_inode" && "project_" + "root" == "project_root";
    Next("pro", "ject_root", "perties");
    assert "pro" + "ject_root" == "project_root" && "pro" + "perties" == "properties";
  }

  lemma RequestKeys()
    ensures Before("properties", "request_id") && Before("request_id", "resource_edited") && Before("resource_edited", "saved_version")
  {
    hide Before;
    Next("", "properties", "request_id");
    assert "" + "properties" == "properties" && "" + "request_id" == "request_id";
    Next("re", "quest_id", "source_edited");
    assert "re" + "quest_id" == "request_id" && "re" + "source_edited" == "resource_edited";
    Next("", "resource_edited", "saved_version");
    assert "" + "resource_edited" == "resource_edited" && "" + "saved_version" == "saved_version";
  }

  lemma SourceKeys()
    ensures Before("script_base_id", "script_id") && Before("script_id", "session_id") && Before("session_id", "source_length")
  {
    hide Before;
    Next("script_", "base_id", "id");
    assert "script_" + "base_id" == "script_base_id" && "script_" + "id" == "script_id";
    Next("s", "cript_id", "ession_id");
    assert "s" + "cript_id" == "script_id" && "s" + "ession_id" == "session_id";
    Next("s", "ession_id", "ource_length");
    assert "s" + "ession_id" == "session_id" && "s" + "ource_length" == "source_length";
  }

  lemma LastKeys()
    ensures Before("source_length", "source_sha256") && Before("source_sha256", "tool") && Before("tool", "version")
    ensures Before("version", "warnings")
  {
    hide Before;
    Next("source_", "length", "sha256");
    assert "source_" + "length" == "source_length" && "source_" + "sha256" == "source_sha256";
    Next("", "source_sha256", "tool");
    assert "" + "source_sha256" == "source_sha256" && "" + "tool" == "tool";
    Next("", "tool", "version");
    assert "" + "tool" == "tool" && "" + "version" == "version";
    Next("", "version", "warnings");
    assert "" + "version" == "version" && "" + "warnings" == "warnings";
  }

  lemma EditingRises(r: Record)
    ensures Rising(Editing(r)) && Editing(r)[8].key == "has_undo"
  {
    hide Names, Bindings, Counter, Before;
    EditingKeys();
    EditorKeys();
    var f := Editing(r);
    assert f[0].key == "autoloads" && f[1].key == "bindings" && f[2].key == "buffer_id" && f[3].key == "dirty" && f[4].key == "editor_id";
    assert f[5].key == "external_editor" && f[6].key == "global_classes" && f[7].key == "has_redo";
  }

  lemma ProjectRises(r: Record)
    ensures Rising(Project(r)) && Project(r)[0].key == "methods" && Project(r)[8].key == "saved_version"
  {
    hide Names, Properties, Counter, Before;
    ProjectKeys();
    RootKeys();
    RequestKeys();
    var f := Project(r);
    assert f[1].key == "path" && f[2].key == "project_device" && f[3].key == "project_inode" && f[4].key == "project_root";
    assert f[5].key == "properties" && f[6].key == "request_id" && f[7].key == "resource_edited";
  }

  lemma SourceRises(r: Record)
    ensures Rising(Source(r)) && Source(r)[0].key == "script_base_id"
  {
    hide WarningFields, Counter, Before;
    SourceKeys();
    LastKeys();
    var f := Source(r);
    assert f[1].key == "script_id" && f[2].key == "session_id" && f[3].key == "source_length" && f[4].key == "source_sha256";
    assert f[5].key == "tool" && f[6].key == "version" && f[7].key == "warnings";
  }

  lemma RecordRises(r: Record)
    ensures Sorted(RecordFields(r))
  {
    EditingRises(r);
    ProjectRises(r);
    SourceRises(r);
    PartLengths(r);
    var e, p, s, f := Editing(r), Project(r), Source(r), RecordFields(r);
    assert Before("has_undo", "methods") && Before("saved_version", "script_base_id");
    hide Editing, Project, Source, Before;
    forall i | 0 <= i < |f| - 1
      ensures Before(f[i].key, f[i + 1].key)
    {
      if i < 8 {
        assert f[i] == e[i] && f[i + 1] == e[i + 1];
      } else if i == 8 {
        assert f[i] == e[8] && f[i + 1] == p[0];
      } else if i < 17 {
        assert f[i] == p[i - 9] && f[i + 1] == p[i - 8];
      } else if i == 17 {
        assert f[i] == p[8] && f[i + 1] == s[0];
      } else {
        assert f[i] == s[i - 18] && f[i + 1] == s[i - 17];
      }
    }
    RisingSorted(f);
  }

  lemma PropertyKeys()
    ensures Before("class_name", "hint") && Before("hint", "hint_string") && Before("hint_string", "name")
    ensures Before("name", "type") && Before("type", "usage")
  {
    hide Before;
    Next("", "class_name", "hint");
    assert "" + "class_name" == "class_name" && "" + "hint" == "hint";
    Next("hint", "", "_string");
    assert "hint" + "" == "hint" && "hint" + "_string" == "hint_string";
    Next("", "hint_string", "name");
    assert "" + "hint_string" == "hint_string" && "" + "name" == "name";
    Next("", "name", "type");
    assert "" + "name" == "name" && "" + "type" == "type";
    Next("", "type", "usage");
    assert "" + "type" == "type" && "" + "usage" == "usage";
  }

  lemma PropertyOrdered(p: Property)
    ensures Ordered(Entries(PropertyFields(p)))
  {
    hide Before;
    PropertyKeys();
    var f := PropertyFields(p);
    assert f[0].key == "class_name" && f[1].key == "hint" && f[2].key == "hint_string" && f[3].key == "name" && f[4].key == "type";
    RisingSorted(f);
  }

  lemma BindingOrdered(b: Binding)
    ensures Ordered(Entries(BindingFields(b)))
  {
    RisingSorted(BindingFields(b));
  }

  /** The level maps list their keys in order. */
  ghost predicate LevelsInOrder(levels: seq<Level>) {
    forall i, j | 0 <= i < j < |levels| :: Before(levels[i].key, levels[j].key)
  }

  lemma WarningsOrdered(r: Record)
    requires LevelsInOrder(r.rules) && LevelsInOrder(r.levels)
    ensures Ordered(Entries(WarningFields(r)))
  {
    RisingSorted(WarningFields(r));
    assert Ordered(Entries(LevelFields(r.rules))) && Ordered(Entries(LevelFields(r.levels)));
  }

  ghost predicate AllOrdered(fields: seq<Field>) {
    forall i | 0 <= i < |fields| :: Ordered(fields[i].value)
  }

  lemma NamesOrdered(names: seq<string>)
    ensures Ordered(Items(Names(names)))
  {
  }

  lemma EditingOrdered(r: Record)
    ensures AllOrdered(Editing(r))
  {
    NamesOrdered(r.autoloads);
    NamesOrdered(r.globals);
    forall i | 0 <= i < |r.bindings| { BindingOrdered(r.bindings[i]); }
    assert Ordered(Items(Bindings(r.bindings)));
    hide Bindings, Names, D.Digits;
  }

  lemma ProjectOrdered(r: Record)
    ensures AllOrdered(Project(r))
  {
    NamesOrdered(r.methods);
    forall i | 0 <= i < |r.properties| { PropertyOrdered(r.properties[i]); }
    assert Ordered(Items(Properties(r.properties)));
    hide Properties, Names, D.Digits;
  }

  lemma SourceOrdered(r: Record)
    requires LevelsInOrder(r.rules) && LevelsInOrder(r.levels)
    ensures AllOrdered(Source(r))
  {
    WarningsOrdered(r);
    hide WarningFields, D.Digits;
  }

  lemma RecordOrdered(r: Record)
    requires LevelsInOrder(r.rules) && LevelsInOrder(r.levels)
    ensures Ordered(Entries(RecordFields(r)))
  {
    EditingOrdered(r);
    ProjectOrdered(r);
    SourceOrdered(r);
    RecordRises(r);
    hide Editing, Project, Source, Sorted;
  }

  /** The guard hashes the canonical encoding: what it streams in its own order is what sorting the keys gives. */
  lemma GuardIsCanonical(r: Record)
    requires LevelsInOrder(r.rules) && LevelsInOrder(r.levels)
    ensures Normal(Entries(RecordFields(r))) == Entries(RecordFields(r))
    ensures GuardBytes(r) == Frame(DOMAIN) + Encoded(Entries(RecordFields(r)))
  {
    hide RecordFields, Normal, Bytes, Frame;
    RecordOrdered(r);
    NormalOfOrdered(Entries(RecordFields(r)));
  }

  // ---- what fits ----

  ghost predicate NamesFit(names: seq<string>) {
    |names| < LENGTHS && forall i | 0 <= i < |names| :: |names[i]| < LENGTHS
  }

  ghost predicate BindingsFit(bindings: seq<Binding>) {
    |bindings| < LENGTHS && forall i | 0 <= i < |bindings| :: bindings[i].api < Room(8) && |bindings[i].name| < LENGTHS
  }

  ghost predicate PropertyFits(p: Property) {
    && |p.className| < LENGTHS && |p.hintString| < LENGTHS && |p.name| < LENGTHS
    && p.hint < Room(8) && p.kind < Room(8) && p.usage < Room(8)
  }

  ghost predicate PropertiesFit(properties: seq<Property>) {
    |properties| < LENGTHS && forall i | 0 <= i < |properties| :: PropertyFits(properties[i])
  }

  ghost predicate LevelsFit(levels: seq<Level>) {
    |levels| < LENGTHS && forall i | 0 <= i < |levels| :: |levels[i].key| < LENGTHS && levels[i].level < Room(8)
  }

  /** Lengths below 2^32 and machine words below 2^64. */
  ghost predicate RecordFits(r: Record) {
    && NamesFit(r.autoloads) && NamesFit(r.globals) && NamesFit(r.methods) && BindingsFit(r.bindings) && PropertiesFit(r.properties)
    && |r.path| < LENGTHS && |r.root| < LENGTHS && |r.request| < LENGTHS && |r.session| < LENGTHS && |r.sha| < LENGTHS
    && r.buffer < Room(8) && r.editor < Room(8) && r.device < Room(8) && r.inode < Room(8) && r.saved < Room(8)
    && r.script < Room(8) && r.length < Room(8) && r.version < Room(8)
    && LevelsFit(r.rules) && LevelsFit(r.levels)
  }

  ghost predicate FieldsFit(fields: seq<Field>) {
    forall i | 0 <= i < |fields| :: |fields[i].key| < LENGTHS && Fitting(fields[i].value)
  }

  lemma {:induction false} DigitsLength(n: nat, k: nat)
    requires n < D.Pow10(k) && k >= 1
    ensures |D.Digits(n)| <= k
    decreases k
  {
    assert D.Pow10(k) == 10 * D.Pow10(k - 1);
    if k == 1 {
      assert D.Pow10(0) == 1;
    } else if n >= 10 {
      DigitsLength(n / 10, k - 1);
    }
  }

  lemma RoomBelowPow()
    ensures Room(8) < D.Pow10(20)
  {
    assert Room(4) == 0x1_0000_0000 by { assert Room(3) == Room(2) * 256 && Room(2) == Room(1) * 256; }
    assert Room(8) == Room(4) * 0x1_0000_0000 by {
      assert Room(8) == Room(7) * 256 && Room(7) == Room(6) * 256 && Room(6) == Room(5) * 256 && Room(5) == Room(4) * 256;
    }
    PowFive(0);
    PowFive(5);
    PowFive(10);
    PowFive(15);
  }

  lemma PowFive(n: nat)
    ensures D.Pow10(n + 5) == 100000 * D.Pow10(n)
  {
    assert D.Pow10(n + 5) == 10 * D.Pow10(n + 4) && D.Pow10(n + 4) == 10 * D.Pow10(n + 3) && D.Pow10(n + 3) == 10 * D.Pow10(n + 2)
           && D.Pow10(n + 2) == 10 * D.Pow10(n + 1) && D.Pow10(n + 1) == 10 * D.Pow10(n);
  }

  /** Every machine word is written in the twenty characters reserved for it, so writing a counter
      never fails. */
  lemma CounterFits(n: nat)
    requires n < Room(8)
    ensures |D.Digits(n)| <= 20 && Fitting(Counter(n))
  {
    RoomBelowPow();
    DigitsLength(n, 20);
  }

  lemma NamesFitting(names: seq<string>)
    requires NamesFit(names)
    ensures Fitting(Items(Names(names)))
  {
    forall i | 0 <= i < |names| ensures Fitting(Names(names)[i]) {}
  }

  lemma BindingsFitting(bindings: seq<Binding>)
    requires BindingsFit(bindings)
    ensures Fitting(Items(Bindings(bindings)))
  {
    hide Room;
    forall i | 0 <= i < |bindings|
      ensures Fitting(Bindings(bindings)[i])
    {
      var f := BindingFields(bindings[i]);
      assert Fitting(f[0].value) && Fitting(f[1].value);
    }
  }

  lemma PropertiesFitting(properties: seq<Property>)
    requires PropertiesFit(properties)
    ensures Fitting(Items(Properties(properties)))
  {
    hide Room;
    forall i | 0 <= i < |properties|
      ensures Fitting(Properties(properties)[i])
    {
      PropertyFitting(properties[i]);
    }
  }

  lemma PropertyFitting(p: Property)
    requires PropertyFits(p)
    ensures Fitting(Entries(PropertyFields(p)))
  {
    hide Room;
    var f := PropertyFields(p);
    assert Fitting(f[0].value) && Fitting(f[1].value) && Fitting(f[2].value);
    assert Fitting(f[3].value) && Fitting(f[4].value) && Fitting(f[5].value);
  }

  lemma LevelsFitting(levels: seq<Level>)
    requires LevelsFit(levels)
    ensures Fitting(Entries(LevelFields(levels)))
  {
    hide Room;
    forall i | 0 <= i < |levels| ensures Fitting(LevelFields(levels)[i].value) {}
  }

  lemma EditingFits(r: Record)
    requires RecordFits(r)
    ensures FieldsFit(Editing(r))
  {
    CounterFits(r.buffer);
    CounterFits(r.editor);
    NamesFitting(r.autoloads);
    BindingsFitting(r.bindings);
    NamesFitting(r.globals);
    hide Room, Counter, Names, Bindings;
  }

  lemma ProjectFits(r: Record)
    requires RecordFits(r)
    ensures FieldsFit(Project(r))
  {
    CounterFits(r.device);
    CounterFits(r.inode);
    CounterFits(r.saved);
    NamesFitting(r.methods);
    PropertiesFitting(r.properties);
    hide Room, Counter, Names, Properties;
  }

  lemma WarningsFit(r: Record)
    requires LevelsFit(r.rules) && LevelsFit(r.levels)
    ensures Fitting(Entries(WarningFields(r)))
  {
    LevelsFitting(r.rules);
    LevelsFitting(r.levels);
    hide Room, LevelFields;
    var f := WarningFields(r);
    assert Fitting(f[0].value) && Fitting(f[1].value) && Fitting(f[2].value);
  }

  lemma SourceFits(r: Record)
    requires RecordFits(r)
    ensures FieldsFit(Source(r))
  {
    CounterFits(r.script);
    CounterFits(r.length);
    CounterFits(r.version);
    WarningsFit(r);
    hide Room, Counter, WarningFields;
  }

  lemma RecordFitting(r: Record)
    requires RecordFits(r)
    ensures Fitting(Entries(RecordFields(r)))
  {
    PartLengths(r);
    EditingFits(r);
    ProjectFits(r);
    SourceFits(r);
    hide Editing, Project, Source, RecordFits;
  }

  /** A guard commits to every one of the 26 fields: two records have the same bytes exactly when they
      are the same record, and no record's bytes continue those of another. */
  lemma GuardIsExact(a: Record, b: Record)
    requires RecordFits(a) && RecordFits(b)
    ensures GuardBytes(a) == GuardBytes(b) <==> a == b
    ensures GuardBytes(a) <= GuardBytes(b) ==> a == b
  {
    RecordFitting(a);
    RecordFitting(b);
    hide RecordFields, Bytes, RecordFits, Fitting, Frame;
    if GuardBytes(a) <= GuardBytes(b) {
      var x, y, d := Entries(RecordFields(a)), Entries(RecordFields(b)), Frame(DOMAIN);
      assert GuardBytes(a)[|d|..] == Bytes(x) && GuardBytes(b)[|d|..] == Bytes(y);
      var rest := Bytes(y)[|Bytes(x)|..];
      assert Bytes(x) + rest == Bytes(y) + "";
      ParseBytes(x, rest);
      ParseBytes(y, "");
      FieldsInjective(a, b);
    }
  }

  // ---- streaming ----

  lemma OneMore(fields: seq<Field>, f: Field)
    ensures BytesFields(fields + [f]) == BytesFields(fields) + Frame(f.key) + Bytes(f.value)
  {
    hide Frame, Bytes;
    Digest.BytesFieldsSplit(fields, [f]);
    assert [f][1..] == [];
    assert BytesFields([f]) == Frame(f.key) + Bytes(f.value) + "";
  }

  lemma OneMoreItem(items: seq<Value>, v: Value)
    ensures BytesAll(items + [v]) == BytesAll(items) + Bytes(v)
  {
    hide Bytes;
    Digest.BytesAllSplit(items, [v]);
    assert [v][1..] == [];
    assert BytesAll([v]) == Bytes(v) + "";
  }

  /** The hash a record is streamed into. The ghost fields remember which fields went in since `start`. */
  class GuardDigest {
    var fed: string
    ghost var start: string
    ghost var fields: seq<Field>

    ghost predicate Valid()
      reads this
    {
      fed == start + BytesFields(fields)
    }

    constructor ()
      ensures Valid() && fed == "" && fields == []
    {
      fed, start, fields := "", "", [];
    }

    method Raw(s: string)
      modifies `fed
      ensures fed == old(fed) + s
    {
      fed := fed + s;
    }

    method FrameOf(s: string)
      modifies `fed
      ensures fed == old(fed) + Frame(s)
    {
      Raw(U32(|s|));
      Raw(s);
      assert fed == old(fed) + (U32(|s|) + s);
    }

    method TextOf(s: string)
      modifies `fed
      ensures fed == old(fed) + Bytes(Text(s))
    {
      Raw("s");
      FrameOf(s);
      assert fed == old(fed) + ("s" + Frame(s));
    }

    method FlagOf(b: bool)
      modifies `fed
      ensures fed == old(fed) + Bytes(Flag(b))
    {
      Raw(['b', if b then 1 as char else 0 as char]);
    }

    method NaturalOf(n: nat)
      modifies `fed
      ensures fed == old(fed) + Bytes(Natural(n))
    {
      Raw("u" + Big(n, 8));
    }

    method DecimalOf(n: nat)
      modifies `fed
      ensures fed == old(fed) + Bytes(Counter(n))
    {
      TextOf(D.Digits(n));
    }

    method Collection(kind: char, count: nat)
      modifies `fed
      ensures fed == old(fed) + ([kind] + U32(count))
    {
      Raw([kind] + U32(count));
    }

    method NamesOf(names: seq<string>)
      modifies `fed
      ensures fed == old(fed) + Bytes(Items(Names(names)))
    {
      hide Bytes, U32;
      ghost var all := Names(names);
      Collection('a', |names|);
      ghost var head := fed;
      var i := 0;
      while i < |names|
        invariant i <= |names| && fed == head + BytesAll(all[..i])
      {
        OneMoreItem(all[..i], all[i]);
        assert all[..i + 1] == all[..i] + [all[i]];
        TextOf(names[i]);
        i := i + 1;
      }
      assert all[..i] == all;
      ItemsBytes(all);
    }

    method LevelsOf(levels: seq<Level>)
      modifies `fed
      ensures fed == old(fed) + Bytes(Entries(LevelFields(levels)))
    {
      hide Bytes, U32, Frame;
      ghost var all := LevelFields(levels);
      Collection('o', |levels|);
      ghost var head := fed;
      var i := 0;
      while i < |levels|
        invariant i <= |levels| && fed == head + BytesFields(all[..i])
      {
        OneMore(all[..i], all[i]);
        assert all[..i + 1] == all[..i] + [all[i]];
        FrameOf(levels[i].key);
        NaturalOf(levels[i].level);
        i := i + 1;
      }
      assert all[..i] == all;
      EntriesBytes(all);
    }

    /** A field whose value was just streamed behind its key is a field of the record. */
    ghost method Noted(f: Field)
      requires fed == start + BytesFields(fields) + Frame(f.key) + Bytes(f.value)
      modifies `fields
      ensures Valid() && fields == old(fields) + [f]
    {
      hide Bytes, Frame;
      OneMore(fields, f);
      fields := fields + [f];
    }

    method TextMember(key: string, s: string)
      requires Valid()
      modifies `fed, `fields
      ensures Valid() && fields == old(fields) + [Field(key, Text(s))]
    {
      hide Bytes, Frame;
      FrameOf(key);
      TextOf(s);
      Noted(Field(key, Text(s)));
    }

    method FlagMember(key: string, b: bool)
      requires Valid()
      modifies `fed, `fields
      ensures Valid() && fields == old(fields) + [Field(key, Flag(b))]
    {
      hide Bytes, Frame;
      FrameOf(key);
      FlagOf(b);
      Noted(Field(key, Flag(b)));
    }

    method NaturalMember(key: string, n: nat)
      requires Valid()
      modifies `fed, `fields
      ensures Valid() && fields == old(fields) + [Field(key, Natural(n))]
    {
      hide Bytes, Frame;
      FrameOf(key);
      NaturalOf(n);
      Noted(Field(key, Natural(n)));
    }

    method DecimalMember(key: string, n: nat)
      requires Valid()
      modifies `fed, `fields
      ensures Valid() && fields == old(fields) + [Field(key, Counter(n))]
    {
      hide Bytes, Frame;
      FrameOf(key);
      DecimalOf(n);
      Noted(Field(key, Counter(n)));
    }

    method NamesMember(key: string, names: seq<string>)
      requires Valid()
      modifies `fed, `fields
      ensures Valid() && fields == old(fields) + [Field(key, Items(Names(names)))]
    {
      hide Bytes, Frame;
      FrameOf(key);
      NamesOf(names);
      Noted(Field(key, Items(Names(names))));
    }

    method LevelsMember(key: string, levels: seq<Level>)
      requires Valid()
      modifies `fed, `fields
      ensures Valid() && fields == old(fields) + [Field(key, Entries(LevelFields(levels)))]
    {
      hide Bytes, Frame;
      FrameOf(key);
      LevelsOf(levels);
      Noted(Field(key, Entries(LevelFields(levels))));
    }

    /** Starts a dictionary inside the record: its fields are noted from here. */
    method Open(count: nat)
      modifies this
      ensures Valid() && fields == [] && start == old(fed) + ("o" + U32(count)) && fed == start
    {
      Collection('o', count);
      start, fields := fed, [];
    }

    method BindingOf(b: Binding)
      modifies this
      ensures fed == old(fed) + Bytes(Entries(BindingFields(b)))
    {
      hide Bytes, BytesFields, U32;
      Open(2);
      NaturalMember("api_type", b.api);
      TextMember("name", b.name);
      assert fields == BindingFields(b);
      EntriesBytes(BindingFields(b));
    }

    method PropertyOf(p: Property)
      modifies this
      ensures fed == old(fed) + Bytes(Entries(PropertyFields(p)))
    {
      hide Bytes, BytesFields, U32;
      Open(6);
      TextMember("class_name", p.className);
      NaturalMember("hint", p.hint);
      TextMember("hint_string", p.hintString);
      TextMember("name", p.name);
      NaturalMember("type", p.kind);
      NaturalMember("usage", p.usage);
      assert fields == PropertyFields(p);
      EntriesBytes(PropertyFields(p));
    }

    method WarningsOf(r: Record)
      modifies this
      ensures fed == old(fed) + Bytes(Entries(WarningFields(r)))
    {
      hide Bytes, BytesFields, U32, LevelFields;
      Open(3);
      LevelsMember("directory_rules", r.rules);
      FlagMember("enable", r.warnings);
      LevelsMember("levels", r.levels);
      assert fields == WarningFields(r);
      EntriesBytes(WarningFields(r));
    }

    method BindingsOf(bindings: seq<Binding>)
      modifies this
      ensures fed == old(fed) + Bytes(Items(Bindings(bindings)))
    {
      hide Bytes, U32, BindingFields;
      ghost var all := Bindings(bindings);
      Collection('a', |bindings|);
      ghost var head := fed;
      var i := 0;
      while i < |bindings|
        invariant i <= |bindings| && fed == head + BytesAll(all[..i])
      {
        OneMoreItem(all[..i], all[i]);
        assert all[..i + 1] == all[..i] + [all[i]];
        BindingOf(bindings[i]);
        i := i + 1;
      }
      assert all[..i] == all;
      ItemsBytes(all);
    }

    method PropertiesOf(properties: seq<Property>)
      modifies this
      ensures fed == old(fed) + Bytes(Items(Properties(properties)))
    {
      hide Bytes, U32, PropertyFields;
      ghost var all := Properties(properties);
      Collection('a', |properties|);
      ghost var head := fed;
      var i := 0;
      while i < |properties|
        invariant i <= |properties| && fed == head + BytesAll(all[..i])
      {
        OneMoreItem(all[..i], all[i]);
        assert all[..i + 1] == all[..i] + [all[i]];
        PropertyOf(properties[i]);
        i := i + 1;
      }
      assert all[..i] == all;
      ItemsBytes(all);
    }

    method BindingsMember(key: string, bindings: seq<Binding>)
      requires Valid()
      modifies this
      ensures Valid() && start == old(start) && fields == old(fields) + [Field(key, Items(Bindings(bindings)))]
    {
      hide Bytes, Frame;
      ghost var s, f := start, fields;
      FrameOf(key);
      BindingsOf(bindings);
      start, fields := s, f;
      Noted(Field(key, Items(Bindings(bindings))));
    }

    method PropertiesMember(key: string, properties: seq<Property>)
      requires Valid()
      modifies this
      ensures Valid() && start == old(start) && fields == old(fields) + [Field(key, Items(Properties(properties)))]
    {
      hide Bytes, Frame;
      ghost var s, f := start, fields;
      FrameOf(key);
      PropertiesOf(properties);
      start, fields := s, f;
      Noted(Field(key, Items(Properties(properties))));
    }

    method WarningsMember(key: string, r: Record)
      requires Valid()
      modifies this
      ensures Valid() && start == old(start) && fields == old(fields) + [Field(key, Entries(WarningFields(r)))]
    {
      hide Bytes, Frame;
      ghost var s, f := start, fields;
      FrameOf(key);
      WarningsOf(r);
      start, fields := s, f;
      Noted(Field(key, Entries(WarningFields(r))));
    }

    method EditingPart(r: Record)
      requires Valid()
      modifies this
      ensures Valid() && start == old(start) && fields == old(fields) + Editing(r)
    {
      hide Names, Bindings, Counter, BytesFields;
      NamesMember("autoloads", r.autoloads);
      BindingsMember("bindings", r.bindings);
      DecimalMember("buffer_id", r.buffer);
      FlagMember("dirty", r.dirty);
      DecimalMember("editor_id", r.editor);
      FlagMember("external_editor", r.external);
      NamesMember("global_classes", r.globals);
      FlagMember("has_redo", r.redo);
      FlagMember("has_undo", r.undo);
    }

    method ProjectPart(r: Record)
      requires Valid()
      modifies this
      ensures Valid() && start == old(start) && fields == old(fields) + Project(r)
    {
      hide Names, Properties, Counter, BytesFields;
      NamesMember("methods", r.methods);
      TextMember("path", r.path);
      DecimalMember("project_device", r.device);
      DecimalMember("project_inode", r.inode);
      TextMember("project_root", r.root);
      PropertiesMember("properties", r.properties);
      TextMember("request_id", r.request);
      FlagMember("resource_edited", r.edited);
      DecimalMember("saved_version", r.saved);
    }

    method SourcePart(r: Record)
      requires Valid()
      modifies this
      ensures Valid() && start == old(start) && fields == old(fields) + Source(r)
    {
      hide WarningFields, Counter, BytesFields;
      TextMember("script_base_id", "0");
      DecimalMember("script_id", r.script);
      TextMember("session_id", r.session);
      DecimalMember("source_length", r.length);
      TextMember("source_sha256", r.sha);
      FlagMember("tool", r.tool);
      DecimalMember("version", r.version);
      WarningsMember("warnings", r);
    }

    /** Streams the record behind its domain: what is fed is its typed encoding, and the projection is
        allowed exactly when that encoding, without the domain, is within the budget. */
    method Stream(r: Record, budget: nat) returns (ok: bool)
      requires fed == ""
      modifies this
      ensures fed == GuardBytes(r)
      ensures ok <==> |Bytes(Entries(RecordFields(r)))| <= budget
    {
      hide Bytes, BytesFields, U32, Frame, Editing, Project, Source;
      FrameOf(DOMAIN);
      var domain := |fed|;
      PartLengths(r);
      Open(26);
      EditingPart(r);
      ProjectPart(r);
      SourcePart(r);
      assert fields == RecordFields(r);
      EntriesBytes(RecordFields(r));
      ok := |fed| - domain <= budget;
    }
  }

  lemma ItemsBytes(items: seq<Value>)
    ensures Bytes(Items(items)) == ['a'] + U32(|items|) + BytesAll(items)
  {
  }

  lemma EntriesBytes(entries: seq<Field>)
    ensures Bytes(Entries(entries)) == ['o'] + U32(|entries|) + BytesFields(entries)
  {
  }
}

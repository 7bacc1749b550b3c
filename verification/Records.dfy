/** The handshake transcript under a role and the revision commitment: each is determined by the
    bytes it is hashed from. */
module Records {
  import opened Wrappers
  import opened Framing

  // ---- the handshake transcript ----

  datatype Capabilities = Capabilities(observe: bool, enumerate: bool, attribute: bool, unsaved: bool, lookup: bool, edit: bool,
                                       open: bool, discover: bool, close: bool, editClosed: bool)

  datatype Transcript = Transcript(request: string, session: string, root: string, version: string, engine: string,
                                   caps: Capabilities, revision: nat, build: string, client: string, server: string)

  function Bit(b: bool): string {
    [if b then 1 as char else 0 as char]
  }

  const BRIDGE := "godot-agent-kit/editor-bridge/v6"

  function TranscriptFields(t: Transcript): seq<string> {
    [BRIDGE, t.request, t.session, t.root, t.version, t.engine] +
    [Bit(t.caps.observe), Bit(t.caps.enumerate), Bit(t.caps.attribute), Bit(t.caps.unsaved), Bit(t.caps.lookup)] +
    [Bit(t.caps.edit), Bit(t.caps.open), Bit(t.caps.discover), Bit(t.caps.close), Bit(t.caps.editClosed)] +
    [U32(t.revision), t.build, t.client, t.server]
  }

  /** What a role proves knowledge of. */
  function RoleTranscript(role: string, t: Transcript): string {
    Frame(role) + Frames(TranscriptFields(t))
  }

  predicate TranscriptFits(t: Transcript) {
    && |t.request| < LENGTHS && |t.session| < LENGTHS && |t.root| < LENGTHS && |t.version| < LENGTHS && |t.engine| < LENGTHS
    && |t.build| < LENGTHS && |t.client| < LENGTHS && |t.server| < LENGTHS && t.revision < LENGTHS
  }

  lemma TranscriptFieldsInjective(t: Transcript, u: Transcript)
    requires TranscriptFits(t) && TranscriptFits(u) && TranscriptFields(t) == TranscriptFields(u)
    ensures t == u
  {
    var a, b := TranscriptFields(t), TranscriptFields(u);
    assert |a| == 20;
    assert a[1] == b[1] && a[2] == b[2] && a[3] == b[3] && a[4] == b[4] && a[5] == b[5];
    assert a[6][0] == b[6][0] && a[7][0] == b[7][0] && a[8][0] == b[8][0] && a[9][0] == b[9][0] && a[10][0] == b[10][0];
    assert a[11][0] == b[11][0] && a[12][0] == b[12][0] && a[13][0] == b[13][0] && a[14][0] == b[14][0] && a[15][0] == b[15][0];
    assert a[16] == b[16] && a[17] == b[17] && a[18] == b[18] && a[19] == b[19];
    U32Inverts(t.revision);
    U32Inverts(u.revision);
  }

  lemma TranscriptShort(t: Transcript)
    requires TranscriptFits(t)
    ensures Short(TranscriptFields(t)) && |TranscriptFields(t)| == 20
  {
  }

  lemma RoleSplit(role: string, t: Transcript, rest: string)
    ensures RoleTranscript(role, t) + rest == Frame(role) + (Frames(TranscriptFields(t)) + rest)
  {
    hide Frames, Frame, TranscriptFields;
  }

  /** A proof made in one role about one handshake commits to that role and that handshake: no other
      pair has the same bytes, or bytes that extend them. */
  lemma TranscriptIsExact(role: string, t: Transcript, role': string, u: Transcript)
    requires |role| < LENGTHS && |role'| < LENGTHS && TranscriptFits(t) && TranscriptFits(u)
    ensures RoleTranscript(role, t) == RoleTranscript(role', u) <==> role == role' && t == u
    ensures RoleTranscript(role, t) <= RoleTranscript(role', u) ==> role == role' && t == u
  {
    hide Frames, Frame, TranscriptFields, TranscriptFits, RoleTranscript;
    var x, y := RoleTranscript(role, t), RoleTranscript(role', u);
    if x <= y {
      var rest := y[|x|..];
      assert x + rest == y + "";
      RoleSplit(role, t, rest);
      RoleSplit(role', u, "");
      TranscriptShort(t);
      TranscriptShort(u);
      var a, b := TranscriptFields(t), TranscriptFields(u);
      FrameCancels(role, role', Frames(a) + rest, Frames(b) + "");
      FramesCancel(a, b, rest, "");
      TranscriptFieldsInjective(t, u);
    }
  }

  // ---- the revision commitment ----

  /** One field of the commitment: tag and value, each behind its length in eight bytes. */
  datatype Tagged = Tagged(tag: string, value: string)

  function Long(s: string): string {
    Big(|s|, 8) + s
  }

  function TaggedBytes(fields: seq<Tagged>): string {
    if fields == [] then "" else Long(fields[0].tag) + Long(fields[0].value) + TaggedBytes(fields[1..])
  }

  ghost predicate Fits(s: string) {
    |s| < Room(8)
  }

  ghost predicate TaggedFit(fields: seq<Tagged>) {
    forall k | 0 <= k < |fields| :: Fits(fields[k].tag) && Fits(fields[k].value)
  }

  lemma LongCancels(a: string, b: string, x: string, y: string)
    requires Fits(a) && Fits(b)
    requires Long(a) + x == Long(b) + y
    ensures a == b && x == y
  {
    hide Big;
    var s := Long(a) + x;
    assert s[..8] == Big(|a|, 8) && s[..8] == Big(|b|, 8);
    BigInverts(|a|, 8);
    BigInverts(|b|, 8);
    assert s[8..8 + |a|] == a && s[8..8 + |a|] == b;
    assert s[8 + |a|..] == x && s[8 + |a|..] == y;
  }

  /** Bytes that begin with the bytes of a list belong to a list that begins with that list. */
  lemma {:induction false} TaggedPrefix(a: seq<Tagged>, b: seq<Tagged>, rest: string)
    requires TaggedFit(a) && TaggedFit(b)
    requires TaggedBytes(a) + rest == TaggedBytes(b)
    ensures a <= b
    decreases |a|
  {
    hide Long, Fits;
    if a != [] {
      var more := TaggedBytes(a[1..]) + rest;
      assert TaggedBytes(b) == Long(a[0].tag) + (Long(a[0].value) + more);
      LongNotEmpty(a[0].tag);
      assert TaggedBytes(b) == Long(b[0].tag) + (Long(b[0].value) + TaggedBytes(b[1..]));
      LongCancels(a[0].tag, b[0].tag, Long(a[0].value) + more, Long(b[0].value) + TaggedBytes(b[1..]));
      LongCancels(a[0].value, b[0].value, more, TaggedBytes(b[1..]));
      TaggedPrefix(a[1..], b[1..], rest);
      assert a == [a[0]] + a[1..] && b == [b[0]] + b[1..];
    }
  }

  lemma LongNotEmpty(s: string)
    ensures Long(s) != ""
  {
  }

  datatype FileId = FileId(device: string, inode: string)

  datatype Document = Document(kind: string, path: string, script: Option<string>, editor: Option<string>, buffer: Option<string>,
                               file: Option<FileId>)

  datatype Provenance = Provenance(path: string, script: Option<string>, editor: Option<string>, buffer: Option<string>,
                                   file: Option<FileId>, version: Option<string>)

  datatype Basis = Basis(project: string, projectFile: FileId, session: string, script: string, document: Document,
                         engineVersion: string, engineHash: string, disk: Provenance, resource: Provenance, buffer: Provenance,
                         dirty: Option<Provenance>, sha: string, bytes: nat, version: string)

  function OptionalFields(tag: string, v: Option<string>): seq<Tagged> {
    match v
    case Some(s) => [Tagged(tag, "present"), Tagged("value", s)]
    case None => [Tagged(tag, "absent")]
  }

  function FileFields(tag: string, v: Option<FileId>): seq<Tagged> {
    match v
    case Some(f) => [Tagged(tag, "present"), Tagged("device", f.device), Tagged("inode", f.inode)]
    case None => [Tagged(tag, "absent")]
  }

  function DocumentFields(d: Document): seq<Tagged> {
    [Tagged("kind", d.kind)] + ([Tagged("resource_path", d.path)] +
    (OptionalFields("script", d.script) + (OptionalFields("editor", d.editor) + (OptionalFields("buffer", d.buffer) +
    FileFields("file", d.file)))))
  }

  function ProvenanceFields(p: Provenance): seq<Tagged> {
    [Tagged("path", p.path)] + (OptionalFields("script", p.script) + (OptionalFields("editor", p.editor) +
    (OptionalFields("buffer", p.buffer) + (FileFields("file", p.file) + OptionalFields("version", p.version)))))
  }

  function WitnessFields(authority: string, p: Provenance): seq<Tagged> {
    [Tagged("authority", authority)] + ([Tagged("availability", "observed")] + ProvenanceFields(p))
  }

  function DirtyFields(p: Option<Provenance>): seq<Tagged> {
    match p
    case Some(w) => [Tagged("authority", "dirty_buffer")] + ProvenanceFields(w)
    case None => []
  }

  function HeaderFields(b: Basis): seq<Tagged> {
    [Tagged("domain", "godot-agent-kit/script-revision/sr1")] + ([Tagged("lifecycle", "open")] + ([Tagged("project", b.project)] +
    (FileFields("project_identity", Some(b.projectFile)) + ([Tagged("session", b.session)] + [Tagged("script_path", b.script)]))))
  }

  function EngineFields(b: Basis): seq<Tagged> {
    [Tagged("engine_version", b.engineVersion)] + [Tagged("engine_hash", b.engineHash)]
  }

  function SourceFields(b: Basis): seq<Tagged> {
    [Tagged("source_sha256", b.sha), Tagged("utf8_bytes", Big(b.bytes, 8)), Tagged("current_version", b.version)]
  }

  /** Every field of the commitment, in the order in which they are fed. */
  function RevisionFields(b: Basis): seq<Tagged> {
    HeaderFields(b) + (DocumentFields(b.document) + (EngineFields(b) +
    (WitnessFields("D", b.disk) + (WitnessFields("R", b.resource) + (WitnessFields("B", b.buffer) +
    ([Tagged("dirty", "clean")] + ([Tagged("validity", "valid")] + (DirtyFields(b.dirty) + SourceFields(b)))))))))
  }

  lemma OneCancels(a: Tagged, b: Tagged, x: seq<Tagged>, y: seq<Tagged>)
    requires [a] + x == [b] + y
    ensures a == b && x == y
  {
    assert ([a] + x)[0] == ([b] + y)[0] && ([a] + x)[1..] == x && ([b] + y)[1..] == y;
  }

  /** The marker decides how many fields follow, so an optional part cannot be confused with its
      surroundings. */
  lemma OptionalCancels(tag: string, a: Option<string>, b: Option<string>, x: seq<Tagged>, y: seq<Tagged>)
    requires OptionalFields(tag, a) + x == OptionalFields(tag, b) + y
    ensures a == b && x == y
  {
    var s := OptionalFields(tag, a) + x;
    assert s[0].value == if a.Some? then "present" else "absent";
    assert s[0].value == if b.Some? then "present" else "absent";
    assert "present" != "absent";
    var n := if a.Some? then 2 else 1;
    assert s[n..] == x && s[n..] == y;
    if a.Some? { assert s[1].value == a.value && s[1].value == b.value; }
  }

  lemma FileCancels(tag: string, a: Option<FileId>, b: Option<FileId>, x: seq<Tagged>, y: seq<Tagged>)
    requires FileFields(tag, a) + x == FileFields(tag, b) + y
    ensures a == b && x == y
  {
    var s := FileFields(tag, a) + x;
    assert s[0].value == if a.Some? then "present" else "absent";
    assert s[0].value == if b.Some? then "present" else "absent";
    assert "present" != "absent";
    var n := if a.Some? then 3 else 1;
    assert s[n..] == x && s[n..] == y;
    if a.Some? { assert s[1].value == a.value.device == b.value.device && s[2].value == a.value.inode == b.value.inode; }
  }

  lemma ProvenanceCancels(a: Provenance, b: Provenance, x: seq<Tagged>, y: seq<Tagged>)
    requires ProvenanceFields(a) + x == ProvenanceFields(b) + y
    ensures a == b && x == y
  {
    var a4, b4 := ProvenanceTail(a, x), ProvenanceTail(b, y);
    ProvenanceSplit(a, x);
    ProvenanceSplit(b, y);
    hide OptionalFields, FileFields, ProvenanceFields;
    OneCancels(Tagged("path", a.path), Tagged("path", b.path),
               OptionalFields("script", a.script) + (OptionalFields("editor", a.editor) + a4),
               OptionalFields("script", b.script) + (OptionalFields("editor", b.editor) + b4));
    OptionalCancels("script", a.script, b.script, OptionalFields("editor", a.editor) + a4, OptionalFields("editor", b.editor) + b4);
    OptionalCancels("editor", a.editor, b.editor, a4, b4);
    OptionalCancels("buffer", a.buffer, b.buffer,
                    FileFields("file", a.file) + (OptionalFields("version", a.version) + x),
                    FileFields("file", b.file) + (OptionalFields("version", b.version) + y));
    FileCancels("file", a.file, b.file, OptionalFields("version", a.version) + x, OptionalFields("version", b.version) + y);
    OptionalCancels("version", a.version, b.version, x, y);
  }

  function ProvenanceTail(p: Provenance, x: seq<Tagged>): seq<Tagged> {
    OptionalFields("buffer", p.buffer) + (FileFields("file", p.file) + (OptionalFields("version", p.version) + x))
  }

  lemma ProvenanceSplit(p: Provenance, x: seq<Tagged>)
    ensures ProvenanceFields(p) + x
            == [Tagged("path", p.path)] + (OptionalFields("script", p.script) + (OptionalFields("editor", p.editor) + ProvenanceTail(p, x)))
  {
    hide OptionalFields, FileFields;
  }

  lemma DocumentCancels(a: Document, b: Document, x: seq<Tagged>, y: seq<Tagged>)
    requires DocumentFields(a) + x == DocumentFields(b) + y
    ensures a == b && x == y
  {
    var a4, b4 := DocumentTail(a, x), DocumentTail(b, y);
    DocumentSplit(a, x);
    DocumentSplit(b, y);
    hide OptionalFields, FileFields, DocumentFields;
    OneCancels(Tagged("kind", a.kind), Tagged("kind", b.kind), [Tagged("resource_path", a.path)] + a4, [Tagged("resource_path", b.path)] + b4);
    OneCancels(Tagged("resource_path", a.path), Tagged("resource_path", b.path), a4, b4);
    OptionalCancels("script", a.script, b.script,
                    OptionalFields("editor", a.editor) + (OptionalFields("buffer", a.buffer) + (FileFields("file", a.file) + x)),
                    OptionalFields("editor", b.editor) + (OptionalFields("buffer", b.buffer) + (FileFields("file", b.file) + y)));
    OptionalCancels("editor", a.editor, b.editor,
                    OptionalFields("buffer", a.buffer) + (FileFields("file", a.file) + x),
                    OptionalFields("buffer", b.buffer) + (FileFields("file", b.file) + y));
    OptionalCancels("buffer", a.buffer, b.buffer, FileFields("file", a.file) + x, FileFields("file", b.file) + y);
    FileCancels("file", a.file, b.file, x, y);
  }

  function DocumentTail(d: Document, x: seq<Tagged>): seq<Tagged> {
    OptionalFields("script", d.script) +
    (OptionalFields("editor", d.editor) + (OptionalFields("buffer", d.buffer) + (FileFields("file", d.file) + x)))
  }

  lemma DocumentSplit(d: Document, x: seq<Tagged>)
    ensures DocumentFields(d) + x == [Tagged("kind", d.kind)] + ([Tagged("resource_path", d.path)] + DocumentTail(d, x))
  {
    hide OptionalFields, FileFields;
  }

  lemma WitnessCancels(authority: string, a: Provenance, b: Provenance, x: seq<Tagged>, y: seq<Tagged>)
    requires WitnessFields(authority, a) + x == WitnessFields(authority, b) + y
    ensures a == b && x == y
  {
    hide ProvenanceFields;
    var p, q := ProvenanceFields(a), ProvenanceFields(b);
    assert (WitnessFields(authority, a) + x)[2..] == p + x;
    assert (WitnessFields(authority, b) + y)[2..] == q + y;
    ProvenanceCancels(a, b, x, y);
  }

  lemma HeaderCancels(a: Basis, b: Basis, x: seq<Tagged>, y: seq<Tagged>)
    requires HeaderFields(a) + x == HeaderFields(b) + y
    ensures a.project == b.project && a.projectFile == b.projectFile && a.session == b.session && a.script == b.script && x == y
  {
    var s, t := HeaderFields(a) + x, HeaderFields(b) + y;
    assert s[2].value == t[2].value && s[4].value == t[4].value && s[5].value == t[5].value && s[6].value == t[6].value
           && s[7].value == t[7].value;
    assert s[8..] == x && t[8..] == y;
  }

  lemma EngineCancels(a: Basis, b: Basis, x: seq<Tagged>, y: seq<Tagged>)
    requires EngineFields(a) + x == EngineFields(b) + y
    ensures a.engineVersion == b.engineVersion && a.engineHash == b.engineHash && x == y
  {
    var s, t := EngineFields(a) + x, EngineFields(b) + y;
    assert s[0].value == t[0].value && s[1].value == t[1].value;
    assert s[2..] == x && t[2..] == y;
  }

  /** The block for the dirty witness has no marker of its own: the tag that follows tells whether it is there. */
  lemma DirtyCancels(a: Basis, b: Basis, x: seq<Tagged>, y: seq<Tagged>)
    requires DirtyFields(a.dirty) + (SourceFields(a) + x) == DirtyFields(b.dirty) + (SourceFields(b) + y)
    requires a.bytes < Room(8) && b.bytes < Room(8)
    ensures a.dirty == b.dirty && a.sha == b.sha && a.bytes == b.bytes && a.version == b.version && x == y
  {
    hide ProvenanceFields, Big;
    var s, t := SourceFields(a) + x, SourceFields(b) + y;
    var u, v := DirtyFields(a.dirty) + s, DirtyFields(b.dirty) + t;
    assert u[0].tag == if a.dirty.Some? then "authority" else "source_sha256";
    assert v[0].tag == if b.dirty.Some? then "authority" else "source_sha256";
    assert "authority" != "source_sha256";
    if a.dirty.Some? {
      assert u[1..] == ProvenanceFields(a.dirty.value) + s && v[1..] == ProvenanceFields(b.dirty.value) + t;
      ProvenanceCancels(a.dirty.value, b.dirty.value, s, t);
    } else {
      assert u == s && v == t;
    }
    assert s == t;
    assert s[0].value == t[0].value && s[1].value == t[1].value && s[2].value == t[2].value;
    assert s[3..] == x && t[3..] == y;
    BigInverts(a.bytes, 8);
    BigInverts(b.bytes, 8);
  }

  lemma FieldsExact(a: Basis, b: Basis)
    requires RevisionFields(a) <= RevisionFields(b)
    requires a.bytes < Room(8) && b.bytes < Room(8)
    ensures a == b
  {
    var y := RevisionFields(b)[|RevisionFields(a)|..];
    assert RevisionFields(a) + y == RevisionFields(b) + [];
    Layers(a, y);
    Layers(b, []);
    hide HeaderFields, DocumentFields, EngineFields, WitnessFields, DirtyFields, SourceFields, RevisionFields;
    HeaderCancels(a, b, AfterHeader(a, y), AfterHeader(b, []));
    DocumentCancels(a.document, b.document, EngineFields(a) + AfterEngine(a, y), EngineFields(b) + AfterEngine(b, []));
    EngineCancels(a, b, AfterEngine(a, y), AfterEngine(b, []));
    WitnessCancels("D", a.disk, b.disk,
                   WitnessFields("R", a.resource) + (WitnessFields("B", a.buffer) + AfterWitnesses(a, y)),
                   WitnessFields("R", b.resource) + (WitnessFields("B", b.buffer) + AfterWitnesses(b, [])));
    WitnessCancels("R", a.resource, b.resource,
                   WitnessFields("B", a.buffer) + AfterWitnesses(a, y), WitnessFields("B", b.buffer) + AfterWitnesses(b, []));
    WitnessCancels("B", a.buffer, b.buffer, AfterWitnesses(a, y), AfterWitnesses(b, []));
    var p, q := DirtyFields(a.dirty) + (SourceFields(a) + y), DirtyFields(b.dirty) + (SourceFields(b) + []);
    OneCancels(Tagged("dirty", "clean"), Tagged("dirty", "clean"), [Tagged("validity", "valid")] + p, [Tagged("validity", "valid")] + q);
    OneCancels(Tagged("validity", "valid"), Tagged("validity", "valid"), p, q);
    DirtyCancels(a, b, y, []);
  }

  function AfterWitnesses(b: Basis, x: seq<Tagged>): seq<Tagged> {
    [Tagged("dirty", "clean")] + ([Tagged("validity", "valid")] + (DirtyFields(b.dirty) + (SourceFields(b) + x)))
  }

  function AfterEngine(b: Basis, x: seq<Tagged>): seq<Tagged> {
    WitnessFields("D", b.disk) + (WitnessFields("R", b.resource) + (WitnessFields("B", b.buffer) + AfterWitnesses(b, x)))
  }

  function AfterHeader(b: Basis, x: seq<Tagged>): seq<Tagged> {
    DocumentFields(b.document) + (EngineFields(b) + AfterEngine(b, x))
  }

  lemma Layers(b: Basis, x: seq<Tagged>)
    ensures RevisionFields(b) + x == HeaderFields(b) + AfterHeader(b, x)
  {
    hide HeaderFields, DocumentFields, EngineFields, WitnessFields, DirtyFields, SourceFields;
  }

  /** What a revision string hashes. */
  function RevisionBytes(b: Basis): string {
    TaggedBytes(RevisionFields(b))
  }

  ghost predicate BasisFits(b: Basis) {
    b.bytes < Room(8) && TaggedFit(RevisionFields(b))
  }

  /** A revision commits to every part of its basis: present or absent identities, the three
      witnesses, and the optional witness of the dirty flag. Distinct bases have distinct bytes and no
      bytes continue those of another basis. */
  lemma RevisionIsExact(a: Basis, b: Basis)
    requires BasisFits(a) && BasisFits(b)
    ensures RevisionBytes(a) == RevisionBytes(b) <==> a == b
    ensures RevisionBytes(a) <= RevisionBytes(b) ==> a == b
  {
    if RevisionBytes(a) <= RevisionBytes(b) {
      hide RevisionFields, TaggedFit, TaggedBytes;
      var rest := RevisionBytes(b)[|RevisionBytes(a)|..];
      TaggedPrefix(RevisionFields(a), RevisionFields(b), rest);
      FieldsExact(a, b);
    }
  }

  lemma {:induction false} TaggedBytesSplit(a: seq<Tagged>, b: seq<Tagged>)
    ensures TaggedBytes(a + b) == TaggedBytes(a) + TaggedBytes(b)
  {
    if a == [] {
      assert a + b == b;
    } else {
      assert (a + b)[1..] == a[1..] + b;
      TaggedBytesSplit(a[1..], b);
    }
  }

  /** The hash context the commitment is fed into; the field list is a ghost record of what was fed. */
  class Context {
    var fed: string
    ghost var fields: seq<Tagged>

    ghost predicate Valid()
      reads this
    {
      fed == TaggedBytes(fields)
    }

    constructor ()
      ensures Valid() && fed == "" && fields == []
    {
      fed, fields := "", [];
    }

    method FieldOf(tag: string, value: string)
      requires Valid()
      modifies this
      ensures Valid() && fields == old(fields) + [Tagged(tag, value)]
    {
      hide Long;
      TaggedBytesSplit(fields, [Tagged(tag, value)]);
      assert TaggedBytes([Tagged(tag, value)]) == Long(tag) + Long(value) by { assert [Tagged(tag, value)][1..] == []; }
      fed := fed + Big(|tag|, 8);
      fed := fed + tag;
      fed := fed + Big(|value|, 8);
      fed := fed + value;
      fields := fields + [Tagged(tag, value)];
      Regroup(old(fed), tag, value);
    }

    method Optional(tag: string, v: Option<string>)
      requires Valid()
      modifies this
      ensures Valid() && fields == old(fields) + OptionalFields(tag, v)
    {
      FieldOf(tag, if v.Some? then "present" else "absent");
      if v.Some? { FieldOf("value", v.value); }
    }

    method File(tag: string, v: Option<FileId>)
      requires Valid()
      modifies this
      ensures Valid() && fields == old(fields) + FileFields(tag, v)
    {
      FieldOf(tag, if v.Some? then "present" else "absent");
      if v.Some? {
        FieldOf("device", v.value.device);
        FieldOf("inode", v.value.inode);
      }
    }

    method Identity(d: Document)
      requires Valid()
      modifies this
      ensures Valid() && fields == old(fields) + DocumentFields(d)
    {
      hide TaggedBytes, OptionalFields, FileFields;
      FieldOf("kind", d.kind);
      FieldOf("resource_path", d.path);
      Optional("script", d.script);
      Optional("editor", d.editor);
      Optional("buffer", d.buffer);
      File("file", d.file);
    }

    method Provenance(p: Provenance)
      requires Valid()
      modifies this
      ensures Valid() && fields == old(fields) + ProvenanceFields(p)
    {
      hide TaggedBytes, OptionalFields, FileFields;
      FieldOf("path", p.path);
      Optional("script", p.script);
      Optional("editor", p.editor);
      Optional("buffer", p.buffer);
      File("file", p.file);
      Optional("version", p.version);
    }

    method Witness(authority: string, p: Provenance)
      requires Valid()
      modifies this
      ensures Valid() && fields == old(fields) + WitnessFields(authority, p)
    {
      hide TaggedBytes, ProvenanceFields;
      FieldOf("authority", authority);
      FieldOf("availability", "observed");
      Provenance(p);
    }

    method Header(b: Basis)
      requires Valid()
      modifies this
      ensures Valid() && fields == old(fields) + HeaderFields(b)
    {
      hide TaggedBytes;
      FieldOf("domain", "godot-agent-kit/script-revision/sr1");
      FieldOf("lifecycle", "open");
      FieldOf("project", b.project);
      File("project_identity", Some(b.projectFile));
      FieldOf("session", b.session);
      FieldOf("script_path", b.script);
    }

    /** The three authorities in their order, then the clean and valid verdicts. */
    method Witnesses(b: Basis)
      requires Valid()
      modifies this
      ensures Valid()
      ensures fields == old(fields) + (WitnessFields("D", b.disk) + (WitnessFields("R", b.resource) + (WitnessFields("B", b.buffer) +
                                       ([Tagged("dirty", "clean")] + [Tagged("validity", "valid")]))))
    {
      hide TaggedBytes, WitnessFields;
      Witness("D", b.disk);
      Witness("R", b.resource);
      Witness("B", b.buffer);
      FieldOf("dirty", "clean");
      FieldOf("validity", "valid");
    }

    method Source(b: Basis)
      requires Valid()
      modifies this
      ensures Valid() && fields == old(fields) + (DirtyFields(b.dirty) + SourceFields(b))
    {
      hide TaggedBytes, ProvenanceFields, Big;
      if b.dirty.Some? {
        FieldOf("authority", "dirty_buffer");
        Provenance(b.dirty.value);
      }
      FieldOf("source_sha256", b.sha);
      FieldOf("utf8_bytes", Big(b.bytes, 8));
      FieldOf("current_version", b.version);
    }

    /** Feeds exactly the bytes of the commitment. */
    method Commitment(b: Basis)
      requires Valid() && fed == "" && fields == []
      modifies this
      ensures fed == RevisionBytes(b)
    {
      hide TaggedBytes, HeaderFields, DocumentFields, WitnessFields, DirtyFields, SourceFields;
      Header(b);
      Identity(b.document);
      FieldOf("engine_version", b.engineVersion);
      FieldOf("engine_hash", b.engineHash);
      Witnesses(b);
      Source(b);
      assert fields == RevisionFields(b);
    }
  }

  lemma Regroup(before: string, tag: string, value: string)
    ensures before + Big(|tag|, 8) + tag + Big(|value|, 8) + value == before + (Long(tag) + Long(value))
  {
  }
}

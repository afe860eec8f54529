/** Board knowledge: the profile, schematic ingest, and the cached documented-limit resolver. */
module Knowledge {
  import opened Common

  datatype DatasheetEntry = DatasheetEntry(cite: string, absoluteMaxV: Option<real>)

  /** The datasheet table, reduced to what limit resolution reads: every entry carries a citation. */
  type Datasheets = m: map<string, seq<DatasheetEntry>> | EntriesCited(m) witness map[]

  predicate EntriesCited(m: map<string, seq<DatasheetEntry>>) {
    forall k :: k in m ==> forall e :: e in m[k] ==> e.cite != ""
  }

  /** Case folding, whitespace stripping and the datasheet table; every result holds for any of them. */
  datatype Library = Library(fold: string -> string, strip: string -> string, datasheets: Datasheets)

  datatype Part = Part(
    ref: string, part: string, role: Option<string>, datasheet: Option<string>, source: Option<string>)
  datatype Rail = Rail(id: string, nominalV: Option<real>, maxCurrentA: Option<real>)
  datatype Net = Net(
    id: string, desc: Option<string>, maxVoltageV: Option<real>, maxCurrentA: Option<real>, source: Option<string>)
  datatype Profile = Profile(parts: seq<Part>, rails: seq<Rail>, nets: seq<Net>, flashRequiresPsuOff: bool)

  datatype SchComponent = SchComponent(
    ref: string, part: Option<string>, kind: Option<string>, description: Option<string>)
  datatype SchNet = SchNet(id: string, classGuess: Option<string>, nominalVGuess: Option<real>)
  datatype Schematic = Schematic(components: seq<SchComponent>, nets: seq<SchNet>, cite: string)

  const SCHEMATIC_IMAGE := Some("schematic_image")

  // ---------------------------------------------------------------- lookups

  function FindNet(nets: seq<Net>, target: string): Option<Net> {
    if nets == [] then None else if nets[0].id == target then Some(nets[0]) else FindNet(nets[1..], target)
  }

  function FindRail(rails: seq<Rail>, target: string): Option<Rail> {
    if rails == [] then None else if rails[0].id == target then Some(rails[0]) else FindRail(rails[1..], target)
  }

  predicate PartMatches(lib: Library, p: Part, target: string) {
    lib.fold(p.ref) == lib.fold(target) || lib.fold(p.part) == lib.fold(target)
  }

  function FindPart(lib: Library, parts: seq<Part>, target: string): Option<Part> {
    if parts == [] then None
    else if PartMatches(lib, parts[0], target) then Some(parts[0])
    else FindPart(lib, parts[1..], target)
  }

  // ---------------------------------------------------------------- schematic merge

  predicate HasRef(lib: Library, parts: seq<Part>, folded: string) {
    exists p :: p in parts && lib.fold(p.ref) == folded
  }

  predicate HasNetId(lib: Library, nets: seq<Net>, folded: string) {
    exists n :: n in nets && lib.fold(n.id) == folded
  }

  function Minted(lib: Library, c: SchComponent): Part {
    var ref := lib.strip(c.ref);
    Part(ref, OrElse(c.part, OrElse(c.kind, ref)), c.description, None, SCHEMATIC_IMAGE)
  }

  function MintedNet(lib: Library, n: SchNet): Net {
    Net(lib.strip(n.id), n.classGuess, None, None, SCHEMATIC_IMAGE)
  }

  function AddPart(lib: Library, parts: seq<Part>, c: SchComponent): seq<Part> {
    var ref := lib.strip(c.ref);
    if ref == "" || HasRef(lib, parts, lib.fold(ref)) then parts else parts + [Minted(lib, c)]
  }

  function AddNet(lib: Library, nets: seq<Net>, n: SchNet): seq<Net> {
    var id := lib.strip(n.id);
    if id == "" || HasNetId(lib, nets, lib.fold(id)) then nets else nets + [MintedNet(lib, n)]
  }

  function AddParts(lib: Library, parts: seq<Part>, cs: seq<SchComponent>): seq<Part> {
    if cs == [] then parts else AddPart(lib, AddParts(lib, parts, cs[..|cs| - 1]), cs[|cs| - 1])
  }

  function AddNets(lib: Library, nets: seq<Net>, ns: seq<SchNet>): seq<Net> {
    if ns == [] then nets else AddNet(lib, AddNets(lib, nets, ns[..|ns| - 1]), ns[|ns| - 1])
  }

  function Merged(lib: Library, p: Profile, sch: Schematic): Profile {
    p.(parts := AddParts(lib, p.parts, sch.components), nets := AddNets(lib, p.nets, sch.nets))
  }

  function MergedAll(lib: Library, p: Profile, schs: seq<Schematic>): Profile {
    if schs == [] then p else Merged(lib, MergedAll(lib, p, schs[..|schs| - 1]), schs[|schs| - 1])
  }

  // ---------------------------------------------------------------- limit resolution

  datatype AbsoluteMax = AbsoluteMax(voltageV: Option<real>, currentA: Option<real>, source: string)
  datatype DocumentedLimit = DocumentedLimit(
    target: string, found: bool, maxVoltageV: Option<real>, maxCurrentA: Option<real>, source: string,
    absoluteMax: Option<AbsoluteMax>)

  function NotFound(target: string): DocumentedLimit {
    DocumentedLimit(target, false, None, None, "", None)
  }

  /** The datasheet named by the profile's part entry for `target`, if it names one. */
  function DatasheetOf(lib: Library, parts: seq<Part>, target: string): Option<string> {
    var p := FindPart(lib, parts, target);
    if p.Some? && p.value.datasheet.Some? && p.value.datasheet.value != "" then p.value.datasheet else None
  }

  function NormalizePart(lib: Library, parts: seq<Part>, part: string): string {
    var key, sheet := lib.fold(part), DatasheetOf(lib, parts, part);
    if key in lib.datasheets then key
    else if sheet.Some? && lib.fold(sheet.value) in lib.datasheets then lib.fold(sheet.value)
    else key
  }

  function FirstAbsoluteMax(entries: seq<DatasheetEntry>): Option<AbsoluteMax> {
    if entries == [] then None
    else if entries[0].absoluteMaxV.Some? then Some(AbsoluteMax(entries[0].absoluteMaxV, None, entries[0].cite))
    else FirstAbsoluteMax(entries[1..])
  }

  function DatasheetAbsoluteMax(lib: Library, parts: seq<Part>, part: string): Option<AbsoluteMax> {
    var key := NormalizePart(lib, parts, part);
    if key in lib.datasheets then FirstAbsoluteMax(lib.datasheets[key]) else None
  }

  function FromNet(p: Profile, target: string): DocumentedLimit {
    var n := FindNet(p.nets, target);
    if n.None? || (n.value.maxVoltageV.None? && n.value.maxCurrentA.None?) then NotFound(target)
    else
      var source := "board_profile.nets[" + target + "]";
      DocumentedLimit(target, true, n.value.maxVoltageV, n.value.maxCurrentA, source, None)
  }

  function FromRail(p: Profile, target: string): DocumentedLimit {
    var r := FindRail(p.rails, target);
    if r.None? || (r.value.maxCurrentA.None? && r.value.nominalV.None?) then NotFound(target)
    else DocumentedLimit(target, true, None, r.value.maxCurrentA, "board_profile.rails[" + target + "]", None)
  }

  function FromPart(lib: Library, p: Profile, target: string): DocumentedLimit {
    var am := DatasheetAbsoluteMax(lib, p.parts, DatasheetOf(lib, p.parts, target).GetOr(target));
    if am.None? then NotFound(target)
    else DocumentedLimit(target, true, am.value.voltageV, am.value.currentA, am.value.source, am)
  }

  function Resolve(lib: Library, p: Profile, target: string, kind: string): DocumentedLimit {
    if kind == "net" then FromNet(p, target)
    else if kind == "rail" then FromRail(p, target)
    else if kind == "part" then FromPart(lib, p, target)
    else NotFound(target)
  }

  /** A found limit carries a citation. */
  lemma FoundLimitIsCited(lib: Library, p: Profile, target: string, kind: string)
    ensures Resolve(lib, p, target, kind).found ==> Resolve(lib, p, target, kind).source != ""
    ensures Resolve(lib, p, target, kind).target == target
  {
    if kind == "part" {
      var am := DatasheetAbsoluteMax(lib, p.parts, DatasheetOf(lib, p.parts, target).GetOr(target));
      var key := NormalizePart(lib, p.parts, DatasheetOf(lib, p.parts, target).GetOr(target));
      if am.Some? { AbsoluteMaxIsCited(lib, key); }
    }
  }

  lemma AbsoluteMaxIsCited(lib: Library, key: string)
    requires key in lib.datasheets
    ensures FirstAbsoluteMax(lib.datasheets[key]).Some? ==> FirstAbsoluteMax(lib.datasheets[key]).value.source != ""
  {
    var table: Datasheets := lib.datasheets;
    FirstAbsoluteMaxIsEntry(table[key]);
    assert EntriesCited(table);
  }

  lemma {:induction false} FirstAbsoluteMaxIsEntry(entries: seq<DatasheetEntry>)
    ensures var am := FirstAbsoluteMax(entries); am.Some? ==> exists e :: e in entries && e.cite == am.value.source
  {
    if entries != [] && entries[0].absoluteMaxV.None? {
      FirstAbsoluteMaxIsEntry(entries[1..]);
    }
  }

  // ---------------------------------------------------------------- what ingest adds

  lemma {:induction false} AddPartsOnlyAppends(lib: Library, parts: seq<Part>, cs: seq<SchComponent>)
    ensures parts <= AddParts(lib, parts, cs)
    ensures forall i :: |parts| <= i < |AddParts(lib, parts, cs)| ==>
              AddParts(lib, parts, cs)[i].datasheet == None && AddParts(lib, parts, cs)[i].source == SCHEMATIC_IMAGE
  {
    if cs != [] { AddPartsOnlyAppends(lib, parts, cs[..|cs| - 1]); }
  }

  lemma {:induction false} AddNetsOnlyAppends(lib: Library, nets: seq<Net>, ns: seq<SchNet>)
    ensures nets <= AddNets(lib, nets, ns)
    ensures forall i :: |nets| <= i < |AddNets(lib, nets, ns)| ==>
              var n := AddNets(lib, nets, ns)[i];
              n.maxVoltageV == None && n.maxCurrentA == None && n.source == SCHEMATIC_IMAGE
  {
    if ns != [] { AddNetsOnlyAppends(lib, nets, ns[..|ns| - 1]); }
  }

  lemma {:induction false} FindPartAppend(lib: Library, parts: seq<Part>, more: seq<Part>, target: string)
    ensures FindPart(lib, parts + more, target)
            == if FindPart(lib, parts, target).Some? then FindPart(lib, parts, target) else FindPart(lib, more, target)
  {
    if parts == [] {
      assert parts + more == more;
    } else {
      assert (parts + more)[1..] == parts[1..] + more;
      FindPartAppend(lib, parts[1..], more, target);
    }
  }

  lemma {:induction false} FindNetAppend(nets: seq<Net>, more: seq<Net>, target: string)
    ensures FindNet(nets + more, target)
            == if FindNet(nets, target).Some? then FindNet(nets, target) else FindNet(more, target)
  {
    if nets == [] {
      assert nets + more == more;
    } else {
      assert (nets + more)[1..] == nets[1..] + more;
      FindNetAppend(nets[1..], more, target);
    }
  }

  lemma {:induction false} FoundPartIsListed(lib: Library, parts: seq<Part>, target: string)
    ensures FindPart(lib, parts, target).Some? ==> FindPart(lib, parts, target).value in parts
  {
    if parts != [] { FoundPartIsListed(lib, parts[1..], target); }
  }

  lemma {:induction false} FoundNetIsListed(nets: seq<Net>, target: string)
    ensures FindNet(nets, target).Some? ==> FindNet(nets, target).value in nets
  {
    if nets != [] { FoundNetIsListed(nets[1..], target); }
  }

  lemma DatasheetOfUnchanged(lib: Library, parts: seq<Part>, cs: seq<SchComponent>, target: string)
    ensures DatasheetOf(lib, AddParts(lib, parts, cs), target) == DatasheetOf(lib, parts, target)
  {
    AddPartsOnlyAppends(lib, parts, cs);
    var all := AddParts(lib, parts, cs);
    var more := all[|parts|..];
    assert all == parts + more;
    FindPartAppend(lib, parts, more, target);
    FoundPartIsListed(lib, more, target);
    if FindPart(lib, more, target).Some? {
      var i :| 0 <= i < |more| && more[i] == FindPart(lib, more, target).value;
      assert all[|parts| + i] == more[i];
    }
  }

  lemma FromNetUnchanged(lib: Library, p: Profile, sch: Schematic, target: string)
    ensures FromNet(Merged(lib, p, sch), target) == FromNet(p, target)
  {
    AddNetsOnlyAppends(lib, p.nets, sch.nets);
    var all := AddNets(lib, p.nets, sch.nets);
    var more := all[|p.nets|..];
    assert all == p.nets + more;
    FindNetAppend(p.nets, more, target);
    FoundNetIsListed(more, target);
    if FindNet(more, target).Some? {
      var i :| 0 <= i < |more| && more[i] == FindNet(more, target).value;
      assert all[|p.nets| + i] == more[i];
    }
  }

  /**
   * Non-interference: ingesting a schematic, whatever it contains, changes no documented limit, for
   * any target of any kind.
   */
  lemma IngestIsNonInterfering(lib: Library, p: Profile, sch: Schematic, target: string, kind: string)
    ensures Resolve(lib, Merged(lib, p, sch), target, kind) == Resolve(lib, p, target, kind)
  {
    FromNetUnchanged(lib, p, sch, target);
    DatasheetOfUnchanged(lib, p.parts, sch.components, target);
    var part := DatasheetOf(lib, p.parts, target).GetOr(target);
    DatasheetOfUnchanged(lib, p.parts, sch.components, part);
  }

  lemma {:induction false} AnyIngestsAreNonInterfering(
      lib: Library, p: Profile, schs: seq<Schematic>, target: string, kind: string)
    ensures Resolve(lib, MergedAll(lib, p, schs), target, kind) == Resolve(lib, p, target, kind)
    ensures MergedAll(lib, p, schs).flashRequiresPsuOff == p.flashRequiresPsuOff
  {
    if schs != [] {
      AnyIngestsAreNonInterfering(lib, p, schs[..|schs| - 1], target, kind);
      IngestIsNonInterfering(lib, MergedAll(lib, p, schs[..|schs| - 1]), schs[|schs| - 1], target, kind);
    }
  }

  /** Documented entries are never overwritten, and what is added documents no limit and no datasheet. */
  lemma {:induction false} IngestsOnlyAppend(lib: Library, p: Profile, schs: seq<Schematic>)
    ensures var r := MergedAll(lib, p, schs);
            && p.parts <= r.parts && p.nets <= r.nets && r.rails == p.rails
            && (forall i :: |p.parts| <= i < |r.parts| ==> r.parts[i].datasheet == None)
            && (forall i :: |p.nets| <= i < |r.nets| ==> r.nets[i].maxVoltageV == None && r.nets[i].maxCurrentA == None)
  {
    if schs != [] {
      var mid := MergedAll(lib, p, schs[..|schs| - 1]);
      IngestsOnlyAppend(lib, p, schs[..|schs| - 1]);
      AddPartsOnlyAppends(lib, mid.parts, schs[|schs| - 1].components);
      AddNetsOnlyAppends(lib, mid.nets, schs[|schs| - 1].nets);
    }
  }

  // ---------------------------------------------------------------- idempotence

  /** Everything the schematic could add is there already. */
  ghost predicate Absorbed(lib: Library, p: Profile, sch: Schematic) {
    && (forall c :: c in sch.components ==> lib.strip(c.ref) == "" || HasRef(lib, p.parts, lib.fold(lib.strip(c.ref))))
    && (forall n :: n in sch.nets ==> lib.strip(n.id) == "" || HasNetId(lib, p.nets, lib.fold(lib.strip(n.id))))
  }

  lemma {:induction false} AddPartsAbsorbs(lib: Library, parts: seq<Part>, cs: seq<SchComponent>)
    ensures forall c :: c in cs ==>
        lib.strip(c.ref) == "" || HasRef(lib, AddParts(lib, parts, cs), lib.fold(lib.strip(c.ref)))
  {
    if cs != [] {
      var front, last := cs[..|cs| - 1], cs[|cs| - 1];
      var before, after := AddParts(lib, parts, front), AddParts(lib, parts, cs);
      AddPartsAbsorbs(lib, parts, front);
      assert before <= after;
      assert after != before ==> Minted(lib, last) in after by {
        if after != before { assert after[|after| - 1] == Minted(lib, last); }
      }
      forall f | HasRef(lib, before, f) ensures HasRef(lib, after, f) {
        var p :| p in before && lib.fold(p.ref) == f;
        assert p in after;
      }
      assert cs == front + [last];
    }
  }

  lemma {:induction false} AddNetsAbsorbs(lib: Library, nets: seq<Net>, ns: seq<SchNet>)
    ensures forall n :: n in ns ==>
        lib.strip(n.id) == "" || HasNetId(lib, AddNets(lib, nets, ns), lib.fold(lib.strip(n.id)))
  {
    if ns != [] {
      var front, last := ns[..|ns| - 1], ns[|ns| - 1];
      var before, after := AddNets(lib, nets, front), AddNets(lib, nets, ns);
      AddNetsAbsorbs(lib, nets, front);
      assert before <= after;
      assert after != before ==> MintedNet(lib, last) in after by {
        if after != before { assert after[|after| - 1] == MintedNet(lib, last); }
      }
      forall f | HasNetId(lib, before, f) ensures HasNetId(lib, after, f) {
        var n :| n in before && lib.fold(n.id) == f;
        assert n in after;
      }
      assert ns == front + [last];
    }
  }

  lemma {:induction false} AbsorbedAddsNoPart(lib: Library, parts: seq<Part>, cs: seq<SchComponent>)
    requires forall c :: c in cs ==> lib.strip(c.ref) == "" || HasRef(lib, parts, lib.fold(lib.strip(c.ref)))
    ensures AddParts(lib, parts, cs) == parts
  {
    if cs != [] { AbsorbedAddsNoPart(lib, parts, cs[..|cs| - 1]); }
  }

  lemma {:induction false} AbsorbedAddsNoNet(lib: Library, nets: seq<Net>, ns: seq<SchNet>)
    requires forall n :: n in ns ==> lib.strip(n.id) == "" || HasNetId(lib, nets, lib.fold(lib.strip(n.id)))
    ensures AddNets(lib, nets, ns) == nets
  {
    if ns != [] { AbsorbedAddsNoNet(lib, nets, ns[..|ns| - 1]); }
  }

  lemma AbsorbedStays(lib: Library, p: Profile, sch: Schematic, next: Schematic)
    requires Absorbed(lib, p, sch)
    ensures Absorbed(lib, Merged(lib, p, next), sch)
  {
    var r := Merged(lib, p, next);
    AddPartsOnlyAppends(lib, p.parts, next.components);
    AddNetsOnlyAppends(lib, p.nets, next.nets);
    forall f | HasRef(lib, p.parts, f) ensures HasRef(lib, r.parts, f) {
      var x :| x in p.parts && lib.fold(x.ref) == f;
      assert x in r.parts;
    }
    forall f | HasNetId(lib, p.nets, f) ensures HasNetId(lib, r.nets, f) {
      var x :| x in p.nets && lib.fold(x.id) == f;
      assert x in r.nets;
    }
  }

  lemma {:induction false} IngestedIsAbsorbed(lib: Library, p: Profile, schs: seq<Schematic>, i: nat)
    requires i < |schs|
    ensures Absorbed(lib, MergedAll(lib, p, schs), schs[i])
  {
    var n := |schs| - 1;
    var mid := MergedAll(lib, p, schs[..n]);
    if i == n {
      AddPartsAbsorbs(lib, mid.parts, schs[n].components);
      AddNetsAbsorbs(lib, mid.nets, schs[n].nets);
    } else {
      IngestedIsAbsorbed(lib, p, schs[..n], i);
      AbsorbedStays(lib, mid, schs[i], schs[n]);
    }
  }

  /** Ingesting again any schematic of the session, at any later time, adds nothing. */
  lemma ReingestAddsNothing(lib: Library, p: Profile, schs: seq<Schematic>, i: nat)
    requires i < |schs|
    ensures Merged(lib, MergedAll(lib, p, schs), schs[i]) == MergedAll(lib, p, schs)
  {
    var r := MergedAll(lib, p, schs);
    IngestedIsAbsorbed(lib, p, schs, i);
    AbsorbedAddsNoPart(lib, r.parts, schs[i].components);
    AbsorbedAddsNoNet(lib, r.nets, schs[i].nets);
  }

  // ---------------------------------------------------------------- the objects

  class BoardProfile {
    const lib: Library
    const flashRequiresPsuOff: bool
    var parts: seq<Part>
    var rails: seq<Rail>
    var nets: seq<Net>

    ghost function State(): Profile
      reads this
    {
      Profile(parts, rails, nets, flashRequiresPsuOff)
    }

    constructor (lib: Library, p: Profile)
      ensures State() == p && this.lib == lib
    {
      this.lib, flashRequiresPsuOff := lib, p.flashRequiresPsuOff;
      parts, rails, nets := p.parts, p.rails, p.nets;
    }

    method MergeSchematic(sch: Schematic) returns (partsAdded: nat, netsAdded: nat)
      modifies this`parts, this`nets
      ensures State() == Merged(lib, old(State()), sch)
      ensures |parts| == |old(parts)| + partsAdded && |nets| == |old(nets)| + netsAdded
    {
      partsAdded := AddComponents(sch.components);
      netsAdded := AddSchematicNets(sch.nets);
    }

    method AddComponents(cs: seq<SchComponent>) returns (added: nat)
      modifies this`parts
      ensures parts == AddParts(lib, old(parts), cs) && |parts| == |old(parts)| + added
    {
      var existing := set p | p in parts :: lib.fold(p.ref);
      added := 0;
      for i := 0 to |cs|
        invariant parts == AddParts(lib, old(parts), cs[..i]) && |parts| == |old(parts)| + added
        invariant forall f :: f in existing <==> HasRef(lib, parts, f)
      {
        assert cs[..i + 1][..i] == cs[..i];
        var ref := lib.strip(cs[i].ref);
        if !(ref == "" || lib.fold(ref) in existing) {
          RefAdded(lib, parts, cs[i]);
          parts := parts + [Minted(lib, cs[i])];
          existing := existing + {lib.fold(ref)};
          added := added + 1;
        }
      }
      assert cs[..|cs|] == cs;
    }

    method AddSchematicNets(ns: seq<SchNet>) returns (added: nat)
      modifies this`nets
      ensures nets == AddNets(lib, old(nets), ns) && |nets| == |old(nets)| + added
    {
      var existing := set n | n in nets :: lib.fold(n.id);
      added := 0;
      for i := 0 to |ns|
        invariant nets == AddNets(lib, old(nets), ns[..i]) && |nets| == |old(nets)| + added
        invariant forall f :: f in existing <==> HasNetId(lib, nets, f)
      {
        assert ns[..i + 1][..i] == ns[..i];
        var id := lib.strip(ns[i].id);
        if !(id == "" || lib.fold(id) in existing) {
          NetIdAdded(lib, nets, ns[i]);
          nets := nets + [MintedNet(lib, ns[i])];
          existing := existing + {lib.fold(id)};
          added := added + 1;
        }
      }
      assert ns[..|ns|] == ns;
    }
  }

  lemma RefAdded(lib: Library, parts: seq<Part>, c: SchComponent)
    ensures forall f ::
        HasRef(lib, parts + [Minted(lib, c)], f) <==> HasRef(lib, parts, f) || f == lib.fold(lib.strip(c.ref))
  {
    var m := Minted(lib, c);
    forall f ensures HasRef(lib, parts + [m], f) <==> HasRef(lib, parts, f) || f == lib.fold(m.ref) {
      if HasRef(lib, parts, f) {
        var p :| p in parts && lib.fold(p.ref) == f;
        assert p in parts + [m];
      }
      assert m in parts + [m];
    }
  }

  lemma NetIdAdded(lib: Library, nets: seq<Net>, n: SchNet)
    ensures forall f ::
        HasNetId(lib, nets + [MintedNet(lib, n)], f) <==> HasNetId(lib, nets, f) || f == lib.fold(lib.strip(n.id))
  {
    var m := MintedNet(lib, n);
    forall f ensures HasNetId(lib, nets + [m], f) <==> HasNetId(lib, nets, f) || f == lib.fold(m.id) {
      if HasNetId(lib, nets, f) {
        var p :| p in nets && lib.fold(p.id) == f;
        assert p in nets + [m];
      }
      assert m in nets + [m];
    }
  }

  class LimitResolver {
    const profile: BoardProfile
    var cache: map<(string, string), DocumentedLimit>
    var datastoreHits: nat

    /** Whatever is cached is what a fresh resolution on the current profile would give. */
    ghost predicate Valid()
      reads this, profile
    {
      forall k :: k in cache ==> cache[k] == Resolve(profile.lib, profile.State(), k.0, k.1)
    }

    constructor (profile: BoardProfile)
      ensures Valid() && this.profile == profile && cache == map[] && datastoreHits == 0
    {
      this.profile := profile;
      cache, datastoreHits := map[], 0;
    }

    method Get(target: string, kind: string) returns (r: DocumentedLimit)
      requires Valid()
      modifies this
      ensures Valid() && r == Resolve(profile.lib, profile.State(), target, kind)
      ensures cache == old(cache)[(target, kind) := r]
      ensures datastoreHits == old(datastoreHits) + (if kind == "part" && (target, kind) !in old(cache) then 1 else 0)
    {
      var key := (target, kind);
      if key in cache {
        assert cache[key := cache[key]] == cache;
        return cache[key];
      }
      r := ResolveFresh(target, kind);
      cache := cache[key := r];
    }

    method ResolveFresh(target: string, kind: string) returns (r: DocumentedLimit)
      modifies this`datastoreHits
      ensures r == Resolve(profile.lib, profile.State(), target, kind)
      ensures datastoreHits == old(datastoreHits) + (if kind == "part" then 1 else 0)
    {
      var lib := profile.lib;
      if kind == "net" {
        var n := FindNet(profile.nets, target);
        if n.None? || (n.value.maxVoltageV.None? && n.value.maxCurrentA.None?) {
          return NotFound(target);
        }
        var source := "board_profile.nets[" + target + "]";
        return DocumentedLimit(target, true, n.value.maxVoltageV, n.value.maxCurrentA, source, None);
      }
      if kind == "rail" {
        var rail := FindRail(profile.rails, target);
        if rail.None? || (rail.value.maxCurrentA.None? && rail.value.nominalV.None?) {
          return NotFound(target);
        }
        return DocumentedLimit(target, true, None, rail.value.maxCurrentA, "board_profile.rails[" + target + "]", None);
      }
      if kind == "part" {
        var dsPart := DatasheetOf(lib, profile.parts, target).GetOr(target);
        datastoreHits := datastoreHits + 1;
        var am := DatasheetAbsoluteMax(lib, profile.parts, dsPart);
        if am.None? {
          return NotFound(target);
        }
        return DocumentedLimit(target, true, am.value.voltageV, am.value.currentA, am.value.source, am);
      }
      return NotFound(target);
    }
  }

  class KnowledgeAdapter {
    const profile: BoardProfile
    var resolver: LimitResolver
    var schematic: Option<Schematic>

    ghost predicate Valid()
      reads this, profile, resolver
    {
      resolver.profile == profile && resolver.Valid()
    }

    constructor (lib: Library, p: Profile)
      ensures Valid() && fresh(profile) && fresh(resolver)
      ensures profile.State() == p && profile.lib == lib && schematic == None
    {
      var bp := new BoardProfile(lib, p);
      profile := bp;
      resolver := new LimitResolver(bp);
      schematic := None;
    }

    method GetDocumentedLimit(target: string, kind: string) returns (r: DocumentedLimit)
      requires Valid()
      modifies resolver
      ensures Valid() && r == Resolve(profile.lib, profile.State(), target, kind)
    {
      r := resolver.Get(target, kind);
    }

    /**
     * Every limit is what it was before the ingest; even the discarded cache would still have been right.
     */
    method IngestSchematic(sch: Schematic) returns (partsAdded: nat, netsAdded: nat, cite: string)
      requires Valid()
      modifies this, profile
      ensures Valid() && fresh(resolver) && resolver.cache == map[] && schematic == Some(sch)
      ensures profile.State() == Merged(profile.lib, old(profile.State()), sch)
      ensures forall target, kind ::
        Resolve(profile.lib, profile.State(), target, kind) == Resolve(profile.lib, old(profile.State()), target, kind)
      ensures old(resolver).Valid()
      ensures cite == if sch.cite != "" then sch.cite else "parsed schematic"
    {
      schematic := Some(sch);
      partsAdded, netsAdded := profile.MergeSchematic(sch);
      resolver := new LimitResolver(profile);
      cite := OrElse(Some(sch.cite), "parsed schematic");
      forall target, kind
        ensures Resolve(profile.lib, profile.State(), target, kind)
            == Resolve(profile.lib, old(profile.State()), target, kind)
      {
        IngestIsNonInterfering(profile.lib, old(profile.State()), sch, target, kind);
      }
    }
  }
}

/** What a documented limit rests on, read off the entries of the profile and of the datasheet table. */
module Limits {
  import opened Common
  import opened Knowledge

  // ---------------------------------------------------------------- first entries

  ghost predicate FirstNet(nets: seq<Net>, id: string, i: nat) {
    i < |nets| && nets[i].id == id && forall j :: 0 <= j < i ==> nets[j].id != id
  }

  ghost predicate FirstRail(rails: seq<Rail>, id: string, i: nat) {
    i < |rails| && rails[i].id == id && forall j :: 0 <= j < i ==> rails[j].id != id
  }

  /** The reference designator or the part number is the name, in any case. */
  ghost predicate Named(lib: Library, p: Part, name: string) {
    lib.fold(p.ref) == lib.fold(name) || lib.fold(p.part) == lib.fold(name)
  }

  ghost predicate FirstPart(lib: Library, parts: seq<Part>, name: string, i: nat) {
    i < |parts| && Named(lib, parts[i], name) && forall j :: 0 <= j < i ==> !Named(lib, parts[j], name)
  }

  lemma {:induction false} NetFound(nets: seq<Net>, id: string)
    ensures FindNet(nets, id).None? <==> forall i :: 0 <= i < |nets| ==> nets[i].id != id
    ensures FindNet(nets, id).Some? ==> exists i: nat :: FirstNet(nets, id, i) && nets[i] == FindNet(nets, id).value
  {
    if nets != [] {
      NetFound(nets[1..], id);
      assert forall i :: 1 <= i < |nets| ==> nets[i] == nets[1..][i - 1];
      if nets[0].id == id {
        assert FirstNet(nets, id, 0);
      } else if FindNet(nets[1..], id).Some? {
        var i: nat :| FirstNet(nets[1..], id, i) && nets[1..][i] == FindNet(nets[1..], id).value;
        assert FirstNet(nets, id, i + 1);
      }
    }
  }

  lemma {:induction false} RailFound(rails: seq<Rail>, id: string)
    ensures FindRail(rails, id).None? <==> forall i :: 0 <= i < |rails| ==> rails[i].id != id
    ensures FindRail(rails, id).Some? ==>
              exists i: nat :: FirstRail(rails, id, i) && rails[i] == FindRail(rails, id).value
  {
    if rails != [] {
      RailFound(rails[1..], id);
      assert forall i :: 1 <= i < |rails| ==> rails[i] == rails[1..][i - 1];
      if rails[0].id == id {
        assert FirstRail(rails, id, 0);
      } else if FindRail(rails[1..], id).Some? {
        var i: nat :| FirstRail(rails[1..], id, i) && rails[1..][i] == FindRail(rails[1..], id).value;
        assert FirstRail(rails, id, i + 1);
      }
    }
  }

  lemma {:induction false} PartFound(lib: Library, parts: seq<Part>, name: string)
    ensures FindPart(lib, parts, name).None? <==> forall i :: 0 <= i < |parts| ==> !Named(lib, parts[i], name)
    ensures FindPart(lib, parts, name).Some? ==>
              exists i: nat :: FirstPart(lib, parts, name, i) && parts[i] == FindPart(lib, parts, name).value
  {
    if parts != [] {
      PartFound(lib, parts[1..], name);
      assert forall i :: 1 <= i < |parts| ==> parts[i] == parts[1..][i - 1];
      if Named(lib, parts[0], name) {
        assert FirstPart(lib, parts, name, 0);
      } else if FindPart(lib, parts[1..], name).Some? {
        var i: nat :| FirstPart(lib, parts[1..], name, i) && parts[1..][i] == FindPart(lib, parts[1..], name).value;
        assert FirstPart(lib, parts, name, i + 1);
      }
    }
  }

  // ---------------------------------------------------------------- nets and rails

  /** Nothing is documented: no values, no citation. */
  ghost predicate Undocumented(r: DocumentedLimit, target: string) {
    r == DocumentedLimit(target, false, None, None, "", None)
  }

  /**
   * The limit of a net is that of the first net with its id: documented exactly when that net states a voltage or
   * a current, and then exactly the two values it states.
   */
  lemma NetLimit(lib: Library, p: Profile, target: string)
    ensures var r := Resolve(lib, p, target, "net");
            && (Undocumented(r, target) <==>
                  forall i: nat :: FirstNet(p.nets, target, i) ==>
                    p.nets[i].maxVoltageV.None? && p.nets[i].maxCurrentA.None?)
            && (!Undocumented(r, target) ==>
                  exists i: nat :: FirstNet(p.nets, target, i) &&
                    r == DocumentedLimit(target, true, p.nets[i].maxVoltageV, p.nets[i].maxCurrentA,
                                         "board_profile.nets[" + target + "]", None))
  {
    NetFound(p.nets, target);
    var n := FindNet(p.nets, target);
    if n.Some? {
      var i: nat :| FirstNet(p.nets, target, i) && p.nets[i] == n.value;
      assert forall j: nat :: FirstNet(p.nets, target, j) ==> j == i;
    }
  }

  /**
   * The limit of a rail is that of the first rail with its id: documented exactly when that rail states a current
   * or a nominal voltage; the current is then the one stated, and there is no voltage ceiling.
   */
  lemma RailLimit(lib: Library, p: Profile, target: string)
    ensures var r := Resolve(lib, p, target, "rail");
            && (Undocumented(r, target) <==>
                  forall i: nat :: FirstRail(p.rails, target, i) ==>
                    p.rails[i].maxCurrentA.None? && p.rails[i].nominalV.None?)
            && (!Undocumented(r, target) ==>
                  exists i: nat :: FirstRail(p.rails, target, i) &&
                    r == DocumentedLimit(target, true, None, p.rails[i].maxCurrentA,
                                         "board_profile.rails[" + target + "]", None))
  {
    RailFound(p.rails, target);
    var n := FindRail(p.rails, target);
    if n.Some? {
      var i: nat :| FirstRail(p.rails, target, i) && p.rails[i] == n.value;
      assert forall j: nat :: FirstRail(p.rails, target, j) ==> j == i;
    }
  }

  // ---------------------------------------------------------------- parts

  /** The datasheet that the first part with the name gives, if it gives one. */
  ghost predicate Gives(lib: Library, parts: seq<Part>, name: string, sheet: string) {
    sheet != "" && exists i: nat :: FirstPart(lib, parts, name, i) && parts[i].datasheet == Some(sheet)
  }

  lemma SheetGiven(lib: Library, parts: seq<Part>, name: string)
    ensures DatasheetOf(lib, parts, name).None? <==> forall sheet :: !Gives(lib, parts, name, sheet)
    ensures forall sheet :: Gives(lib, parts, name, sheet) <==> DatasheetOf(lib, parts, name) == Some(sheet)
  {
    PartFound(lib, parts, name);
    var found := FindPart(lib, parts, name);
    if found.Some? {
      var i: nat :| FirstPart(lib, parts, name, i) && parts[i] == found.value;
      assert forall j: nat :: FirstPart(lib, parts, name, j) ==> j == i;
      forall sheet ensures Gives(lib, parts, name, sheet) <==> DatasheetOf(lib, parts, name) == Some(sheet) {}
    } else {
      forall i: nat ensures !FirstPart(lib, parts, name, i) {}
    }
  }

  /** The text looked up: the datasheet of the part, or the target itself when its part gives none. */
  ghost predicate LookedUp(lib: Library, parts: seq<Part>, target: string, name: string) {
    Gives(lib, parts, target, name) || (name == target && forall sheet :: !Gives(lib, parts, target, sheet))
  }

  /** The key of the table: the text itself, or else the datasheet of the part that the text names. */
  ghost predicate TableKey(lib: Library, parts: seq<Part>, name: string, key: string) {
    key in lib.datasheets &&
    (key == lib.fold(name)
     || (lib.fold(name) !in lib.datasheets && exists sheet :: Gives(lib, parts, name, sheet) && key == lib.fold(sheet)))
  }

  /** The first entry with an absolute maximum. */
  ghost predicate FirstMaximum(entries: seq<DatasheetEntry>, i: nat) {
    i < |entries| && entries[i].absoluteMaxV.Some? && forall j :: 0 <= j < i ==> entries[j].absoluteMaxV.None?
  }

  lemma {:induction false} MaximumFound(entries: seq<DatasheetEntry>)
    ensures FirstAbsoluteMax(entries).None? <==> forall i :: 0 <= i < |entries| ==> entries[i].absoluteMaxV.None?
    ensures FirstAbsoluteMax(entries).Some? ==>
              exists i: nat :: FirstMaximum(entries, i) &&
                FirstAbsoluteMax(entries).value == AbsoluteMax(entries[i].absoluteMaxV, None, entries[i].cite)
  {
    if entries != [] {
      MaximumFound(entries[1..]);
      assert forall i :: 1 <= i < |entries| ==> entries[i] == entries[1..][i - 1];
      if entries[0].absoluteMaxV.Some? {
        assert FirstMaximum(entries, 0);
      } else if FirstAbsoluteMax(entries[1..]).Some? {
        var i: nat :| FirstMaximum(entries[1..], i) &&
          FirstAbsoluteMax(entries[1..]).value
          == AbsoluteMax(entries[1..][i].absoluteMaxV, None, entries[1..][i].cite);
        assert FirstMaximum(entries, i + 1);
      }
    }
  }

  lemma KeyIs(lib: Library, parts: seq<Part>, name: string)
    ensures forall key :: TableKey(lib, parts, name, key) <==>
              key in lib.datasheets && key == NormalizePart(lib, parts, name)
  {
    SheetGiven(lib, parts, name);
    hide Gives;
    hide DatasheetOf;
  }

  lemma LookedUpIs(lib: Library, parts: seq<Part>, target: string)
    ensures forall name :: LookedUp(lib, parts, target, name) <==> name == DatasheetOf(lib, parts, target).GetOr(target)
  {
    SheetGiven(lib, parts, target);
    hide Gives;
    hide DatasheetOf;
  }

  /** The entry that documents the limit of a part. */
  ghost predicate Documents(lib: Library, p: Profile, target: string, e: DatasheetEntry) {
    exists name, key, i: nat ::
      LookedUp(lib, p.parts, target, name) && TableKey(lib, p.parts, name, key)
      && FirstMaximum(lib.datasheets[key], i) && e == lib.datasheets[key][i]
  }

  /**
   * The limit of a part is that of the first datasheet entry with an absolute maximum under the resolved key: its
   * voltage, no current, and its citation.
   */
  lemma PartLimit(lib: Library, p: Profile, target: string)
    ensures var r := Resolve(lib, p, target, "part");
            && (Undocumented(r, target) <==> forall e :: !Documents(lib, p, target, e))
            && (forall e :: Documents(lib, p, target, e) ==>
                  r == DocumentedLimit(target, true, e.absoluteMaxV, None, e.cite,
                                       Some(AbsoluteMax(e.absoluteMaxV, None, e.cite))))
  {
    var name := DatasheetOf(lib, p.parts, target).GetOr(target);
    var key := NormalizePart(lib, p.parts, name);
    LookedUpIs(lib, p.parts, target);
    KeyIs(lib, p.parts, name);
    hide LookedUp;
    hide TableKey;
    hide NormalizePart;
    hide DatasheetOf;
    if key in lib.datasheets {
      var entries := lib.datasheets[key];
      MaximumFound(entries);
      if FirstAbsoluteMax(entries).Some? {
        var i: nat :| FirstMaximum(entries, i) &&
          FirstAbsoluteMax(entries).value == AbsoluteMax(entries[i].absoluteMaxV, None, entries[i].cite);
        assert Documents(lib, p, target, entries[i]);
        assert forall j: nat :: FirstMaximum(entries, j) ==> j == i;
      }
    }
  }

  /** No other kind of target has a limit. */
  lemma OtherKinds(lib: Library, p: Profile, target: string, kind: string)
    requires kind != "net" && kind != "rail" && kind != "part"
    ensures Undocumented(Resolve(lib, p, target, kind), target)
  {
  }

  // ---------------------------------------------------------------- what an ingest mints

  /** The component is new: named, and neither known before nor named earlier in the schematic. */
  ghost predicate NewComponent(lib: Library, parts: seq<Part>, cs: seq<SchComponent>, i: nat) {
    i < |cs| && lib.strip(cs[i].ref) != ""
    && (forall p :: p in parts ==> lib.fold(p.ref) != lib.fold(lib.strip(cs[i].ref)))
    && (forall j :: 0 <= j < i && lib.strip(cs[j].ref) != "" ==>
          lib.fold(lib.strip(cs[j].ref)) != lib.fold(lib.strip(cs[i].ref)))
  }

  /** The entry of a component: its number, or else its kind, or else its designator; never a datasheet. */
  ghost predicate EntryFor(lib: Library, c: SchComponent, p: Part) {
    && p.ref == lib.strip(c.ref) && p.role == c.description
    && p.datasheet == None && p.source == Some("schematic_image")
    && (if c.part.Some? && c.part.value != "" then p.part == c.part.value
        else if c.kind.Some? && c.kind.value != "" then p.part == c.kind.value
        else p.part == lib.strip(c.ref))
  }

  /** Which components are new, in order. */
  ghost function NewOnes(lib: Library, parts: seq<Part>, cs: seq<SchComponent>, n: nat): seq<SchComponent>
    requires n <= |cs|
  {
    if n == 0 then []
    else NewOnes(lib, parts, cs, n - 1) + (if NewComponent(lib, parts, cs, n - 1) then [cs[n - 1]] else [])
  }

  lemma {:induction false} KnownRefs(lib: Library, parts: seq<Part>, cs: seq<SchComponent>, folded: string)
    ensures HasRef(lib, AddParts(lib, parts, cs), folded)
            <==> HasRef(lib, parts, folded)
                 || exists j :: 0 <= j < |cs| && lib.strip(cs[j].ref) != "" && lib.fold(lib.strip(cs[j].ref)) == folded
  {
    if cs != [] {
      var front, last := cs[..|cs| - 1], cs[|cs| - 1];
      KnownRefs(lib, parts, front, folded);
      KnownRefs(lib, parts, front, lib.fold(lib.strip(last.ref)));
      RefAdded(lib, AddParts(lib, parts, front), last);
      assert forall j :: 0 <= j < |front| ==> front[j] == cs[j];
      hide HasRef;
      hide Minted;
    }
  }

  /** An ingest appends one entry for each new component of the schematic, in order, and nothing else. */
  lemma {:induction false} MintsNewComponents(lib: Library, parts: seq<Part>, cs: seq<SchComponent>, n: nat)
    requires n <= |cs|
    ensures var r, news := AddParts(lib, parts, cs[..n]), NewOnes(lib, parts, cs, n);
            && |r| == |parts| + |news| && r[..|parts|] == parts
            && (forall k :: 0 <= k < |news| ==> EntryFor(lib, news[k], r[|parts| + k]))
  {
    if n == 0 {
      assert cs[..0] == [];
    } else {
      var c := cs[n - 1];
      MintsNewComponents(lib, parts, cs, n - 1);
      assert cs[..n][..n - 1] == cs[..n - 1] && cs[..n][n - 1] == c;
      KnownRefs(lib, parts, cs[..n - 1], lib.fold(lib.strip(c.ref)));
      assert NewComponent(lib, parts, cs, n - 1)
        <==> lib.strip(c.ref) != "" && !HasRef(lib, AddParts(lib, parts, cs[..n - 1]), lib.fold(lib.strip(c.ref)));
      hide HasRef;
    }
  }

  ghost predicate NewSchNet(lib: Library, nets: seq<Net>, ns: seq<SchNet>, i: nat) {
    i < |ns| && lib.strip(ns[i].id) != ""
    && (forall n :: n in nets ==> lib.fold(n.id) != lib.fold(lib.strip(ns[i].id)))
    && (forall j :: 0 <= j < i && lib.strip(ns[j].id) != "" ==>
          lib.fold(lib.strip(ns[j].id)) != lib.fold(lib.strip(ns[i].id)))
  }

  ghost function NewNets(lib: Library, nets: seq<Net>, ns: seq<SchNet>, n: nat): seq<SchNet>
    requires n <= |ns|
  {
    if n == 0 then []
    else NewNets(lib, nets, ns, n - 1) + (if NewSchNet(lib, nets, ns, n - 1) then [ns[n - 1]] else [])
  }

  lemma {:induction false} KnownNetIds(lib: Library, nets: seq<Net>, ns: seq<SchNet>, folded: string)
    ensures HasNetId(lib, AddNets(lib, nets, ns), folded)
            <==> HasNetId(lib, nets, folded)
                 || exists j :: 0 <= j < |ns| && lib.strip(ns[j].id) != "" && lib.fold(lib.strip(ns[j].id)) == folded
  {
    if ns != [] {
      var front, last := ns[..|ns| - 1], ns[|ns| - 1];
      KnownNetIds(lib, nets, front, folded);
      KnownNetIds(lib, nets, front, lib.fold(lib.strip(last.id)));
      NetIdAdded(lib, AddNets(lib, nets, front), last);
      assert forall j :: 0 <= j < |front| ==> front[j] == ns[j];
      hide HasNetId;
      hide MintedNet;
    }
  }

  /** The entry made for a net: its id and its guessed class, and no limits. */
  ghost predicate NetEntryFor(lib: Library, n: SchNet, r: Net) {
    r == Net(lib.strip(n.id), n.classGuess, None, None, Some("schematic_image"))
  }

  lemma NetAdded(lib: Library, nets: seq<Net>, ns: seq<SchNet>, c: SchNet)
    ensures var before, r := AddNets(lib, nets, ns), AddNets(lib, nets, ns + [c]);
            if lib.strip(c.id) == "" || HasNetId(lib, before, lib.fold(lib.strip(c.id))) then r == before
            else exists e: Net :: NetEntryFor(lib, c, e) && r == before + [e]
  {
    hide HasNetId;
    assert (ns + [c])[..|ns|] == ns;
    assert NetEntryFor(lib, c, Net(lib.strip(c.id), c.classGuess, None, None, Some("schematic_image")));
  }

  lemma NewNetIff(lib: Library, nets: seq<Net>, ns: seq<SchNet>, n: nat)
    requires n < |ns|
    ensures NewSchNet(lib, nets, ns, n) <==>
              lib.strip(ns[n].id) != "" && !HasNetId(lib, AddNets(lib, nets, ns[..n]), lib.fold(lib.strip(ns[n].id)))
  {
    hide AddNets;
    KnownNetIds(lib, nets, ns[..n], lib.fold(lib.strip(ns[n].id)));
  }

  /** Likewise for nets: one entry without limits for each new net, with the guessed class as its description. */
  lemma {:induction false} MintsNewNets(lib: Library, nets: seq<Net>, ns: seq<SchNet>, n: nat)
    requires n <= |ns|
    ensures var r, news := AddNets(lib, nets, ns[..n]), NewNets(lib, nets, ns, n);
            && |r| == |nets| + |news| && r[..|nets|] == nets
            && (forall k :: 0 <= k < |news| ==> NetEntryFor(lib, news[k], r[|nets| + k]))
  {
    if n == 0 {
      assert ns[..0] == [];
    } else {
      MintsNewNets(lib, nets, ns, n - 1);
      assert ns[..n] == ns[..n - 1] + [ns[n - 1]];
      NetAdded(lib, nets, ns[..n - 1], ns[n - 1]);
      NewNetIff(lib, nets, ns, n - 1);
      hide AddNets;
      hide HasNetId;
      hide NewSchNet;
      hide NetEntryFor;
    }
  }

  /** A merge touches the parts and the nets, each by its own list of the schematic, and nothing else. */
  lemma MergeTouches(lib: Library, p: Profile, sch: Schematic)
    ensures var r := Merged(lib, p, sch);
            && r == p.(parts := r.parts, nets := r.nets)
            && |r.parts| == |p.parts| + |NewOnes(lib, p.parts, sch.components, |sch.components|)|
            && |r.nets| == |p.nets| + |NewNets(lib, p.nets, sch.nets, |sch.nets|)|
  {
    MintsNewComponents(lib, p.parts, sch.components, |sch.components|);
    MintsNewNets(lib, p.nets, sch.nets, |sch.nets|);
    assert sch.components[..|sch.components|] == sch.components && sch.nets[..|sch.nets|] == sch.nets;
  }
}

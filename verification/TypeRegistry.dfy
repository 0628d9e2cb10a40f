/** The registry of wire names (bus/types.go): two maps that answer in both directions. */
module TypeRegistry {
  import opened Wrappers

  datatype GoType = Struct(name: string) | Pointer(elem: GoType)

  /** One accepted registration: the name and the type the sample points at. */
  datatype Entry = Entry(name: string, elem: GoType)

  datatype State = State(build: map<string, GoType>, names: map<GoType, string>)

  function Record(s: State, e: Entry): State {
    State(s.build[e.name := e.elem], s.names[Pointer(e.elem) := e.name][e.elem := e.name])
  }

  function RecordAll(entries: seq<Entry>): State {
    if entries == [] then State(map[], map[]) else Record(RecordAll(entries[..|entries| - 1]), entries[|entries| - 1])
  }

  class TypeRegistry {
    var build: map<string, GoType>
    var names: map<GoType, string>

    function View(): State
      reads this
    {
      State(build, names)
    }

    constructor ()
      ensures View() == RecordAll([])
    {
      build, names := map[], map[];
    }

    /** Panics (false, and nothing recorded) without a sample, on a sample that is no pointer, and on a name
        already taken. */
    method Register(name: string, sample: Option<GoType>) returns (ok: bool)
      modifies this
      ensures ok == (sample.Some? && sample.value.Pointer? && name !in old(build))
      ensures View() == if ok then Record(old(View()), Entry(name, sample.value.elem)) else old(View())
    {
      if sample.None? || !sample.value.Pointer? || name in build {
        return false;
      }
      build := build[name := sample.value.elem];
      names := names[sample.value := name];
      names := names[sample.value.elem := name];
      return true;
    }

    function NameOf(t: GoType): (r: Option<string>)
      reads this
    {
      if t in names then Some(names[t]) else None
    }

    function New(name: string): (r: Option<GoType>)
      reads this
    {
      if name in build then Some(Pointer(build[name])) else None
    }
  }

  /** What registering at startup keeps to: no name twice, and samples that are pointers to structs. */
  ghost predicate Accepted(entries: seq<Entry>) {
    (forall i :: 0 <= i < |entries| ==> entries[i].elem.Struct?)
    && forall i, j :: 0 <= i < j < |entries| ==> entries[i].name != entries[j].name
  }

  /** A name is answered with the one type registered under it; a type with its latest name. */
  lemma {:induction false} Answers(entries: seq<Entry>, i: nat)
    requires Accepted(entries) && i < |entries|
    ensures var s := RecordAll(entries); var e := entries[i];
            e.name in s.build && s.build[e.name] == e.elem
            && Pointer(e.elem) in s.names && e.elem in s.names && s.names[Pointer(e.elem)] == s.names[e.elem]
            && ((forall j :: i < j < |entries| ==> entries[j].elem != e.elem) ==> s.names[e.elem] == e.name)
  {
    var n := |entries| - 1;
    if i < n {
      Answers(entries[..n], i);
      assert forall j :: i < j < n ==> entries[j] == entries[..n][j];
    }
  }

  /** A name nothing was registered under is not answered, nor a type nobody registered. */
  lemma {:induction false} OnlyTheRegisteredAnswer(r: TypeRegistry, entries: seq<Entry>, name: string, t: GoType)
    requires Accepted(entries) && r.View() == RecordAll(entries)
    ensures r.New(name) == None <==> forall i :: 0 <= i < |entries| ==> entries[i].name != name
    ensures r.NameOf(t) == None <==> forall i :: 0 <= i < |entries| ==> t != entries[i].elem && t != Pointer(entries[i].elem)
  {
    RecordedOnly(entries, name, t);
  }

  lemma {:induction false} RecordedOnly(entries: seq<Entry>, name: string, t: GoType)
    ensures name in RecordAll(entries).build <==> exists i :: 0 <= i < |entries| && entries[i].name == name
    ensures t in RecordAll(entries).names
            <==> exists i :: 0 <= i < |entries| && (t == entries[i].elem || t == Pointer(entries[i].elem))
  {
    if entries != [] {
      var n := |entries| - 1;
      RecordedOnly(entries[..n], name, t);
      assert forall i :: 0 <= i < n ==> entries[..n][i] == entries[i];
    }
  }

  /** No type is ever written under a name that rebuilds another type. */
  lemma {:induction false} NamesRebuildTheirType(entries: seq<Entry>, t: GoType)
    requires Accepted(entries) && t in RecordAll(entries).names
    ensures var s := RecordAll(entries);
            s.names[t] in s.build && (t == Pointer(s.build[s.names[t]]) || t == s.build[s.names[t]])
            && exists i :: 0 <= i < |entries| && entries[i].name == s.names[t]
  {
    var n := |entries| - 1;
    var e := entries[n];
    if t != e.elem && t != Pointer(e.elem) {
      NamesRebuildTheirType(entries[..n], t);
      var i :| 0 <= i < n && entries[..n][i].name == RecordAll(entries[..n]).names[t];
      assert entries[i].name != e.name;
    }
  }

  /** What New builds from a name travels back under that name exactly when its type was not registered again
      later. */
  lemma NameOfNew(r: TypeRegistry, entries: seq<Entry>, i: nat)
    requires Accepted(entries) && i < |entries| && r.View() == RecordAll(entries)
    ensures var name := entries[i].name;
            r.New(name) == Some(Pointer(entries[i].elem))
            && (r.NameOf(r.New(name).value) == Some(name)
                <==> forall j :: i < j < |entries| ==> entries[j].elem != entries[i].elem)
  {
    Answers(entries, i);
    if j :| i < j < |entries| && entries[j].elem == entries[i].elem {
      var last := LatestOf(entries, j);
      Answers(entries, last);
    }
  }

  lemma {:induction false} LatestOf(entries: seq<Entry>, j: nat) returns (last: nat)
    requires j < |entries|
    ensures j <= last < |entries| && entries[last].elem == entries[j].elem
    ensures forall k :: last < k < |entries| ==> entries[k].elem != entries[j].elem
    decreases |entries| - j
  {
    last := j;
    if k :| j < k < |entries| && entries[k].elem == entries[j].elem {
      last := LatestOf(entries, k);
    }
  }
}

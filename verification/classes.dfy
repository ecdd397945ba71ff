/** The class machinery behind a UDP object: every object carries one class
    tag, classes are registered by name and may belong to groups, and a
    method admits its first argument by checking the tag against a class or
    a group. */
module Classes {

  datatype Class = Connected | Unconnected | Master {
    /** The name the class is registered and checked under. */
    function Name(): string {
      match this
      case Connected => "udp{connected}"
      case Unconnected => "udp{unconnected}"
      case Master => "udp{master}"
    }
  }

  datatype Group = Any {
    function Name(): string {
      "udp{any}"
    }
  }

  /** The registered classes and, per class, the groups it belongs to. */
  datatype Registry = Registry(classes: set<Class>, groups: map<Class, set<Group>>)

  const Empty: Registry := Registry({}, map[])

  /** `aux_newclass`: registers `c`, in no group yet. */
  function NewClass(reg: Registry, c: Class): (r: Registry)
    ensures r.classes == reg.classes + {c}
    ensures c in r.groups && r.groups[c] == {}
    ensures forall d | d in reg.groups && d != c :: d in r.groups && r.groups[d] == reg.groups[d]
    ensures forall d | d in r.groups :: d in reg.groups || d == c
  {
    Registry(reg.classes + {c}, reg.groups[c := {}])
  }

  /** `aux_add2group`: adds class `c` to group `g`, leaving the other classes as
      they are. */
  function AddToGroup(reg: Registry, c: Class, g: Group): (r: Registry)
    ensures r.classes == reg.classes
    ensures c in r.groups && g in r.groups[c]
    ensures forall d | d in reg.groups && d != c :: d in r.groups && r.groups[d] == reg.groups[d]
    ensures forall d | d in r.groups :: d in reg.groups || d == c
  {
    var current := if c in reg.groups then reg.groups[c] else {};
    Registry(reg.classes, reg.groups[c := current + {g}])
  }

  /** The registry `udp_open` builds: two classes, both in `udp{any}`. As a
      corollary of the first clause, no class named `udp{master}` is ever
      registered. */
  function Open(): (reg: Registry)
    ensures reg.classes == {Connected, Unconnected}
    ensures Master !in reg.classes
    ensures forall c :: CheckGroup(reg, c, Any) <==> c in reg.classes
  {
    var r1 := NewClass(Empty, Connected);
    var r2 := NewClass(r1, Unconnected);
    var r3 := AddToGroup(r2, Connected, Any);
    AddToGroup(r3, Unconnected, Any)
  }

  /** `aux_checkclass`: the object's class name must be the expected one. */
  function CheckClass(tag: Class, expected: Class): (ok: bool)
    ensures ok <==> tag == expected
  {
    tag.Name() == expected.Name()
  }

  /** `aux_checkgroup`: the object's class must belong to group `g`. */
  predicate CheckGroup(reg: Registry, tag: Class, g: Group) {
    tag in reg.groups && g in reg.groups[tag]
  }

  /** The group `udp{any}` admits exactly the two registered classes. */
  lemma AnyAdmitsBothClasses(tag: Class)
    ensures CheckGroup(Open(), tag, Any) <==> tag == Connected || tag == Unconnected
  {
  }
}

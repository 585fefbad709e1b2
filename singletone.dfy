/**
 * `utils/patterns/singletone.py`: three ways of making a class hand out one
 * instance — the `SingleTone` metaclass with one `_instances` dict shared by
 * all its classes, the `SingletonMixin` whose `__new__` keeps the instance
 * in the class attribute `_instance`, and the `singleton` decorator with a
 * dict of its own per decorated class.
 *
 * A class is named by a `ClassId`; an object records the class that built
 * it and the arguments its `__init__` last ran with.
 */
module Singletons {
  import opened Wrappers
  import opened PyValues

  type ClassId = string

  class Instance {
    const cls: ClassId
    var args: seq<Value>

    constructor(cls: ClassId, args: seq<Value>)
      ensures this.cls == cls && this.args == args
    {
      this.cls := cls;
      this.args := args;
    }
  }

  // ---------------------------------------------------------------------
  // The SingleTone metaclass
  // ---------------------------------------------------------------------

  /** `SingleTone._instances`, shared by every class built with the metaclass. */
  class SingleToneCache {
    var instances: map<ClassId, Instance>

    /** Each class's entry is an instance of that class. */
    ghost predicate Valid()
      reads this, instances.Values
    {
      forall c :: c in instances ==> instances[c].cls == c
    }

    constructor()
      ensures Valid() && instances == map[]
    {
      instances := map[];
    }

    /**
     * `cls(*args)` through `SingleTone.__call__`: the first call constructs
     * and caches the instance; later calls return it without running
     * `__init__`, whatever their arguments.
     */
    method Call(cls: ClassId, args: seq<Value>) returns (obj: Instance)
      requires Valid()
      modifies this
      ensures Valid()
      ensures cls in old(instances) ==> obj == old(instances[cls]) && instances == old(instances) && obj.args == old(obj.args)
      ensures cls !in old(instances) ==> fresh(obj) && obj.args == args && instances == old(instances)[cls := obj]
      ensures obj.cls == cls && GetCurrentInstance(cls) == Some(obj)
    {
      if cls !in instances {
        var instance := new Instance(cls, args);
        instances := instances[cls := instance];
      }
      obj := instances[cls];
    }

    /** `cls.get_current_instance()`: the cached instance, None before the first call. */
    function GetCurrentInstance(cls: ClassId): (r: Option<Instance>)
      reads this
      ensures r.None? <==> cls !in instances
      ensures r.Some? ==> r.value == instances[cls]
    {
      if cls in instances then Some(instances[cls]) else None
    }

    /** Two classes never share an instance. */
    lemma DistinctClasses(c1: ClassId, c2: ClassId)
      requires Valid() && c1 != c2
      ensures GetCurrentInstance(c1).Some? && GetCurrentInstance(c2).Some? ==>
        GetCurrentInstance(c1).value != GetCurrentInstance(c2).value
    {
      if GetCurrentInstance(c1).Some? && GetCurrentInstance(c2).Some? {
        assert GetCurrentInstance(c1).value.cls == c1;
      }
    }
  }

  /** Two calls for the same class give one object, built with the first call's arguments. */
  method CallTwice(cache: SingleToneCache, cls: ClassId, first: seq<Value>, second: seq<Value>) returns (a: Instance, b: Instance)
    requires cache.Valid()
    modifies cache
    ensures a == b && b.cls == cls
    ensures cls !in old(cache.instances) ==> b.args == first
  {
    a := cache.Call(cls, first);
    b := cache.Call(cls, second);
  }

  // ---------------------------------------------------------------------
  // SingletonMixin
  // ---------------------------------------------------------------------

  /**
   * The `_instance` attributes set by `SingletonMixin.__new__`, by the class
   * they were set on. `SingletonMixin` itself holds None, so a class with
   * no entry here inherits None unless an ancestor has an entry.
   */
  class MixinAttributes {
    var instance: map<ClassId, Instance>

    /** `__new__` sets `cls._instance` only to an instance of `cls`. */
    ghost predicate Valid()
      reads this, instance.Values
    {
      forall c :: c in instance ==> instance[c].cls == c
    }

    constructor()
      ensures Valid() && instance == map[]
    {
      instance := map[];
    }

    /** `cls._instance`: the attribute found first along the method resolution order `mro`. */
    function Lookup(mro: seq<ClassId>): (r: Option<Instance>)
      reads this
      ensures r.None? <==> forall i :: 0 <= i < |mro| ==> mro[i] !in instance
      ensures r.Some? ==> exists i :: (0 <= i < |mro| && mro[i] in instance && r.value == instance[mro[i]]
        && forall j :: 0 <= j < i ==> mro[j] !in instance)
    {
      if |mro| == 0 then None
      else if mro[0] in instance then
        Some(instance[mro[0]])
      else
        var r := Lookup(mro[1..]);
        if r.Some? then
          var i :| 0 <= i < |mro[1..]| && mro[1..][i] in instance && r.value == instance[mro[1..][i]]
            && forall j :: 0 <= j < i ==> mro[1..][j] !in instance;
          assert mro[i + 1] in instance && forall j :: 0 <= j < i + 1 ==> mro[j] !in instance;
          r
        else r
    }

    /**
     * `cls(*args)` for a class whose resolution order `mro` (starting with
     * `cls`) reaches `SingletonMixin`: `__new__` creates and stores an
     * instance only when `cls._instance` is None, and returns
     * `cls._instance`. Python then runs `__init__` again on the result
     * when it is an instance of `cls`, which here means it was stored on
     * `cls` itself.
     */
    method New(mro: seq<ClassId>, args: seq<Value>) returns (obj: Instance)
      requires Valid() && |mro| > 0
      modifies this, instance.Values
      ensures Valid()
      ensures old(Lookup(mro)).None? ==>
        fresh(obj) && obj.cls == mro[0] && obj.args == args && instance == old(instance)[mro[0] := obj]
      ensures old(Lookup(mro)).Some? ==> obj == old(Lookup(mro)).value && instance == old(instance)
      ensures old(Lookup(mro)).Some? && obj.cls == mro[0] ==> obj.args == args
      ensures old(Lookup(mro)).Some? && obj.cls != mro[0] ==> obj.args == old(obj.args)
      ensures forall o :: o in old(instance.Values) && o != obj ==> o.args == old(o.args)
    {
      var found := Lookup(mro);
      if found.None? {
        obj := new Instance(mro[0], args);
        instance := instance[mro[0] := obj];
      } else {
        obj := found.value;
        if obj.cls == mro[0] {
          obj.args := args;
        }
      }
    }

    /**
     * A subclass created after its parent gets the parent's instance: the
     * lookup of `_instance` finds the parent's attribute first.
     */
    lemma SubclassGetsParentInstance(cls: ClassId, parent: ClassId)
      requires cls !in instance && parent in instance
      ensures Lookup([cls, parent]) == Some(instance[parent])
    {
      assert Lookup([cls, parent][1..]) == Some(instance[parent]);
    }
  }

  // ---------------------------------------------------------------------
  // The singleton decorator
  // ---------------------------------------------------------------------

  /** The function `singleton(cls)` returns, with its own `_instance` dict. */
  class SingletonFunction {
    const cls: ClassId
    var instance: map<ClassId, Instance>

    ghost predicate Valid()
      reads this, instance.Values
    {
      instance.Keys <= {cls} && forall c :: c in instance ==> instance[c].cls == c
    }

    /** `singleton(cls)`: a fresh, empty dict. */
    constructor(cls: ClassId)
      ensures Valid() && this.cls == cls && instance == map[]
    {
      this.cls := cls;
      instance := map[];
    }

    /** `_singleton(*args)`: the first call builds the instance, every later call returns it. */
    method Call(args: seq<Value>) returns (obj: Instance)
      requires Valid()
      modifies this
      ensures Valid()
      ensures cls in old(instance) ==> obj == old(instance[cls]) && instance == old(instance) && obj.args == old(obj.args)
      ensures cls !in old(instance) ==> fresh(obj) && obj.args == args && instance == map[cls := obj]
      ensures instance == map[cls := obj] && obj.cls == cls
    {
      if cls !in instance {
        var o := new Instance(cls, args);
        instance := instance[cls := o];
      }
      obj := instance[cls];
    }
  }
}

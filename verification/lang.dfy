/**
 * The Java runtime vocabulary shared by every module of the model:
 * nullable values, the exceptions the core throws or lets through,
 * and a value type standing for an arbitrary Java object.
 */
module Lang {

  datatype Option<T> = None | Some(value: T)

  /** The exception kinds that the modelled code throws, wraps or lets propagate. */
  datatype Error =
    | ExecutorException
    | CacheException
    | BuilderException
    | IncompleteElementException
    | BindingException
    | TooManyResultsException
    | PersistenceException(cause: Error)
    | UnsupportedOperationException
    | ClassCastException
    | NullPointerException
    | NoSuchElementException
    | NumberFormatException
    | IllegalArgumentException
    | IllegalStateException
    | SqlException
    | IoException

  datatype Result<T> = Success(value: T) | Failure(error: Error)

  /** The outcome of a Java call that returns nothing: it completed, or it threw. */
  datatype Outcome = Pass | Fail(error: Error)

  /**
   * A Java object as far as the core can observe it.  `ListObj` is a
   * java.util.List, `CollectionObj` any other Collection, `ArrayObj` an
   * array, `MapObj` a java.util.Map with string keys (`strict` when it is
   * a MapperMethod.ParamMap, whose `get` throws BindingException for an
   * absent key), and `Bean` any other object (identified only by an opaque
   * number).  `ExecutionPlaceholder`
   * is the marker the executor stores in its local cache while a query is
   * in flight.  Value equality of `Obj` stands for ArrayUtil.equals.
   */
  datatype Obj =
    | Null
    | ExecutionPlaceholder
    | Bool(b: bool)
    | Int(i: int)
    | Str(s: string)
    | ListObj(items: seq<Obj>)
    | CollectionObj(elements: seq<Obj>)
    | ArrayObj(cells: seq<Obj>)
    | MapObj(entries: map<string, Obj>, strict: bool)
    | Bean(id: nat)

  /** A Java `Map.get`: the mapped value, or null when the key is absent. */
  function Lookup<K>(m: map<K, Obj>, k: K): (v: Obj)
    ensures k !in m ==> v == Null
    ensures k in m ==> v == m[k]
  {
    if k in m then m[k] else Null
  }

  /** Concatenation regroups freely. */
  lemma {:induction false} AppendAssoc<T>(a: seq<T>, b: seq<T>, c: seq<T>)
    ensures a + b + c == a + (b + c)
  {
  }

  /** Adjacent slices join into one. */
  lemma {:induction false} SliceConcat<T>(s: seq<T>, i: nat, j: nat, k: nat)
    requires i <= j <= k <= |s|
    ensures s[i..j] + s[j..k] == s[i..k]
  {
  }

  /** A sequence is a prefix of itself followed by anything. */
  lemma {:induction false} PrefixOfAppend<T>(a: seq<T>, b: seq<T>)
    ensures a <= a + b
  {
    assert (a + b)[..|a|] == a;
  }
}

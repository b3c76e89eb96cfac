/**
 * DefaultSqlSession: the session object handed to applications.  It looks a
 * statement up by id, forwards the work to its executor, and keeps one bit
 * of transaction state, `dirty`, which decides whether a plain commit or
 * rollback must really reach the database.  It also remembers the cursors
 * it opened so that closing the session closes them.
 *
 * The executor is seen only through the calls the session makes on it: the
 * session logs each call in `executorCalls`, and what the executor answers
 * is a parameter of the session method.
 */
module SqlSessions {
  import opened Lang
  import opened Mapping
  import ParamNameResolvers

  /** One call from the session into its executor, with the arguments the session passed. */
  datatype ExecutorCall =
    | QueryCall(statement: MappedStatement, parameter: Obj, rowBounds: RowBounds)
    | UpdateCall(statement: MappedStatement, parameter: Obj)
    | CommitCall(required: bool)
    | RollbackCall(required: bool)
    | CloseCall(forceRollback: bool)

  /** An open cursor, identified by an opaque number. */
  datatype Cursor = Cursor(id: nat)

  /**
   * The cardinality rule of selectOne: one row is the answer, no row is
   * null, and more than one row is an error.
   */
  function OneResult(list: seq<Obj>): (r: Result<Obj>)
    ensures |list| == 1 ==> r == Success(list[0])
    ensures |list| > 1 ==> r == Failure(TooManyResultsException)
    ensures list == [] ==> r == Success(Null)
  {
    if |list| == 1 then Success(list[0])
    else if |list| > 1 then Failure(TooManyResultsException)
    else Success(Null)
  }

  /**
   * selectOne succeeds exactly when at most one row came back, and then the
   * list is empty or holds only the answer; a non-null answer was the one row.
   */
  lemma {:induction false} OneResultMeaning(list: seq<Obj>)
    ensures OneResult(list).Success? <==> |list| <= 1
    ensures OneResult(list).Success? ==> list == [] || list == [OneResult(list).value]
    ensures OneResult(list).Success? && OneResult(list).value != Null ==> list == [OneResult(list).value]
  {
    if |list| == 1 {
      assert list == [list[0]];
    }
  }

  /** A map that refuses to answer for an absent key instead of returning null. */
  function StrictGet<V>(m: map<string, V>, key: string): (r: Result<V>)
    ensures r.Success? <==> key in m
    ensures r.Success? ==> r.value == m[key]
    ensures r.Failure? ==> r.error == BindingException
  {
    if key !in m then Failure(BindingException) else Success(m[key])
  }

  /** A strict map answers with what was last stored under a key and still refuses other absent keys. */
  lemma {:induction false} StrictGetAfterPut<V>(m: map<string, V>, key: string, v: V, other: string)
    requires other != key
    ensures StrictGet(m[key := v], key) == Success(v)
    ensures StrictGet(m[key := v], other) == StrictGet(m, other)
  {
  }

  /**
   * How many cursors close before the first one whose close fails; all of
   * them when none fails.
   */
  function ClosedBeforeFailure(cursors: seq<Cursor>, closeCursor: Cursor -> Outcome): (k: nat)
    ensures k <= |cursors|
    ensures forall i :: 0 <= i < k ==> closeCursor(cursors[i]).Pass?
    ensures k < |cursors| ==> closeCursor(cursors[k]).Fail?
    decreases |cursors|
  {
    if cursors == [] then 0
    else if closeCursor(cursors[0]).Fail? then 0
    else 1 + ClosedBeforeFailure(cursors[1..], closeCursor)
  }

  /** The registered cursors of a lazily created list. */
  function Registered(cursorList: Option<seq<Cursor>>): seq<Cursor> {
    if cursorList.Some? then cursorList.value else []
  }

  /** An exception caught by the session and rethrown through ExceptionFactory.wrapException. */
  function Wrapped(e: Error): Error {
    PersistenceException(e)
  }

  /** What closeCursors throws when a cursor fails to close: only an IOException is caught and wrapped. */
  function CloseFailure(e: Error): Error {
    if e == IoException then Wrapped(e) else e
  }

  class DefaultSqlSession {
    /** The mapped statements of the configuration, by id. */
    const statements: map<string, MappedStatement>
    const autoCommit: bool
    var dirty: bool
    var cursorList: Option<seq<Cursor>>
    /** Every call the session has made into its executor, oldest first. */
    var executorCalls: seq<ExecutorCall>
    /** Every cursor whose close the session has called, oldest first. */
    var closeAttempts: seq<Cursor>

    /** A new session is clean and has no cursor list yet. */
    constructor (statements: map<string, MappedStatement>, autoCommit: bool)
      ensures this.statements == statements && this.autoCommit == autoCommit
      ensures !dirty && cursorList == None
      ensures executorCalls == [] && closeAttempts == []
    {
      this.statements := statements;
      this.autoCommit := autoCommit;
      dirty := false;
      cursorList := None;
      executorCalls := [];
      closeAttempts := [];
    }

    /** The two-argument constructor: a session without auto-commit. */
    constructor Manual(statements: map<string, MappedStatement>)
      ensures this.statements == statements && !autoCommit
      ensures !dirty && cursorList == None
      ensures executorCalls == [] && closeAttempts == []
    {
      this.statements := statements;
      autoCommit := false;
      dirty := false;
      cursorList := None;
      executorCalls := [];
      closeAttempts := [];
    }

    /**
     * Whether a commit or rollback must reach the database: when forced, or
     * when the session is not auto-committing and has written since the last
     * commit or rollback.
     */
    predicate CommitOrRollbackRequired(force: bool)
      reads this
      ensures CommitOrRollbackRequired(force) ==> force || !autoCommit
      ensures CommitOrRollbackRequired(force) ==> force || dirty
      ensures !force && (autoCommit || !dirty) ==> !CommitOrRollbackRequired(force)
      ensures force ==> CommitOrRollbackRequired(force)
    {
      (!autoCommit && dirty) || force
    }

    /** The cursors registered so far, in registration order. */
    function Cursors(): seq<Cursor>
      reads this
    {
      Registered(cursorList)
    }

    /**
     * selectList: look the statement up, wrap a collection argument, and ask
     * the executor; `answer` is what the executor returns or throws.  Any
     * failure reaches the caller wrapped.
     */
    method SelectList(statement: string, parameter: Obj, rowBounds: RowBounds, answer: Result<seq<Obj>>)
      returns (r: Result<seq<Obj>>)
      modifies this
      ensures statement !in statements ==>
        r == Failure(Wrapped(IllegalArgumentException)) && executorCalls == old(executorCalls)
      ensures statement in statements ==>
        executorCalls == old(executorCalls)
          + [QueryCall(statements[statement], ParamNameResolvers.WrapToMapIfCollection(parameter, None), rowBounds)]
      ensures statement in statements && answer.Success? ==> r == answer
      ensures statement in statements && answer.Failure? ==> r == Failure(Wrapped(answer.error))
      ensures dirty == old(dirty) && cursorList == old(cursorList) && closeAttempts == old(closeAttempts)
    {
      if statement !in statements {
        return Failure(Wrapped(IllegalArgumentException));
      }
      var ms := statements[statement];
      executorCalls := executorCalls + [QueryCall(ms, ParamNameResolvers.WrapToMapIfCollection(parameter, None), rowBounds)];
      if answer.Failure? {
        return Failure(Wrapped(answer.error));
      }
      return answer;
    }

    /**
     * selectOne: the rows of selectList with the default row bounds, reduced
     * by the cardinality rule.  Too many rows is not wrapped: the check runs
     * after the query, outside its exception handler.
     */
    method SelectOne(statement: string, parameter: Obj, answer: Result<seq<Obj>>) returns (r: Result<Obj>)
      modifies this
      ensures statement !in statements ==> r == Failure(Wrapped(IllegalArgumentException))
      ensures statement in statements && answer.Failure? ==> r == Failure(Wrapped(answer.error))
      ensures statement in statements && answer.Success? ==> r == OneResult(answer.value)
      ensures statement in statements ==>
        executorCalls == old(executorCalls)
          + [QueryCall(statements[statement], ParamNameResolvers.WrapToMapIfCollection(parameter, None), NoRowBounds)]
      ensures statement !in statements ==> executorCalls == old(executorCalls)
      ensures dirty == old(dirty) && cursorList == old(cursorList) && closeAttempts == old(closeAttempts)
    {
      var list := SelectList(statement, parameter, NoRowBounds, answer);
      if list.Failure? {
        return Failure(list.error);
      }
      r := OneResult(list.value);
    }

    /**
     * update (and insert and delete, which call it): the session is marked
     * dirty before anything else happens, so it stays dirty even when the
     * statement is unknown or the executor fails.
     */
    method Update(statement: string, parameter: Obj, affected: Result<int>) returns (r: Result<int>)
      modifies this
      ensures dirty
      ensures statement !in statements ==>
        r == Failure(Wrapped(IllegalArgumentException)) && executorCalls == old(executorCalls)
      ensures statement in statements ==>
        executorCalls == old(executorCalls)
          + [UpdateCall(statements[statement], ParamNameResolvers.WrapToMapIfCollection(parameter, None))]
      ensures statement in statements && affected.Success? ==> r == affected
      ensures statement in statements && affected.Failure? ==> r == Failure(Wrapped(affected.error))
      ensures cursorList == old(cursorList) && closeAttempts == old(closeAttempts)
    {
      dirty := true;
      if statement !in statements {
        return Failure(Wrapped(IllegalArgumentException));
      }
      var ms := statements[statement];
      executorCalls := executorCalls + [UpdateCall(ms, ParamNameResolvers.WrapToMapIfCollection(parameter, None))];
      if affected.Failure? {
        return Failure(Wrapped(affected.error));
      }
      return affected;
    }

    /** insert is update under another name. */
    method Insert(statement: string, parameter: Obj, affected: Result<int>) returns (r: Result<int>)
      modifies this
      ensures dirty
      ensures statement !in statements ==>
        r == Failure(Wrapped(IllegalArgumentException)) && executorCalls == old(executorCalls)
      ensures statement in statements ==>
        executorCalls == old(executorCalls)
          + [UpdateCall(statements[statement], ParamNameResolvers.WrapToMapIfCollection(parameter, None))]
      ensures statement in statements && affected.Success? ==> r == affected
      ensures statement in statements && affected.Failure? ==> r == Failure(Wrapped(affected.error))
      ensures cursorList == old(cursorList) && closeAttempts == old(closeAttempts)
    {
      r := Update(statement, parameter, affected);
    }

    /** delete is update under another name. */
    method Delete(statement: string, parameter: Obj, affected: Result<int>) returns (r: Result<int>)
      modifies this
      ensures dirty
      ensures statement !in statements ==>
        r == Failure(Wrapped(IllegalArgumentException)) && executorCalls == old(executorCalls)
      ensures statement in statements ==>
        executorCalls == old(executorCalls)
          + [UpdateCall(statements[statement], ParamNameResolvers.WrapToMapIfCollection(parameter, None))]
      ensures statement in statements && affected.Success? ==> r == affected
      ensures statement in statements && affected.Failure? ==> r == Failure(Wrapped(affected.error))
      ensures cursorList == old(cursorList) && closeAttempts == old(closeAttempts)
    {
      r := Update(statement, parameter, affected);
    }

    /**
     * commit(force): tell the executor whether the commit is required; the
     * session becomes clean only when the executor's commit went through.
     */
    method Commit(force: bool, outcome: Outcome) returns (r: Outcome)
      modifies this
      ensures executorCalls == old(executorCalls) + [CommitCall(old(CommitOrRollbackRequired(force)))]
      ensures outcome.Pass? ==> r == Pass && !dirty
      ensures outcome.Fail? ==> r == Fail(Wrapped(outcome.error)) && dirty == old(dirty)
      ensures cursorList == old(cursorList) && closeAttempts == old(closeAttempts)
    {
      executorCalls := executorCalls + [CommitCall(CommitOrRollbackRequired(force))];
      if outcome.Fail? {
        return Fail(Wrapped(outcome.error));
      }
      dirty := false;
      r := Pass;
    }

    /** rollback(force): the same protocol as commit. */
    method Rollback(force: bool, outcome: Outcome) returns (r: Outcome)
      modifies this
      ensures executorCalls == old(executorCalls) + [RollbackCall(old(CommitOrRollbackRequired(force)))]
      ensures outcome.Pass? ==> r == Pass && !dirty
      ensures outcome.Fail? ==> r == Fail(Wrapped(outcome.error)) && dirty == old(dirty)
      ensures cursorList == old(cursorList) && closeAttempts == old(closeAttempts)
    {
      executorCalls := executorCalls + [RollbackCall(CommitOrRollbackRequired(force))];
      if outcome.Fail? {
        return Fail(Wrapped(outcome.error));
      }
      dirty := false;
      r := Pass;
    }

    /** registerCursor: the list is created on first use; cursors are kept in registration order. */
    method RegisterCursor(cursor: Cursor)
      modifies this
      ensures cursorList == Some(old(Cursors()) + [cursor])
      ensures dirty == old(dirty) && executorCalls == old(executorCalls) && closeAttempts == old(closeAttempts)
    {
      if cursorList.None? {
        cursorList := Some([]);
      }
      cursorList := Some(cursorList.value + [cursor]);
    }

    /**
     * closeCursors: close every registered cursor in order, stopping at the
     * first one that fails; the list is emptied only when all of them closed.
     * A missing or empty list is left as it is.  An IOException is wrapped;
     * any other failure propagates as it is.
     */
    method CloseCursors(closeCursor: Cursor -> Outcome) returns (r: Outcome)
      modifies this
      ensures var cs := old(Cursors());
        var k := ClosedBeforeFailure(cs, closeCursor);
        && (k == |cs| ==> r == Pass && closeAttempts == old(closeAttempts) + cs)
        && (k == |cs| && cs != [] ==> cursorList == Some([]))
        && (k < |cs| ==> r == Fail(CloseFailure(closeCursor(cs[k]).error)) && closeAttempts == old(closeAttempts) + cs[..k + 1])
      ensures ClosedBeforeFailure(old(Cursors()), closeCursor) < |old(Cursors())| || old(Cursors()) == [] ==>
        cursorList == old(cursorList)
      ensures dirty == old(dirty) && executorCalls == old(executorCalls)
    {
      if cursorList.None? || cursorList.value == [] {
        return Pass;
      }
      var cs := cursorList.value;
      ghost var start := closeAttempts;
      var i := 0;
      while i < |cs|
        invariant 0 <= i <= ClosedBeforeFailure(cs, closeCursor)
        invariant closeAttempts == start + cs[..i]
        invariant cursorList == Some(cs) && dirty == old(dirty) && executorCalls == old(executorCalls)
        decreases |cs| - i
      {
        closeAttempts := closeAttempts + [cs[i]];
        assert cs[..i + 1] == cs[..i] + [cs[i]];
        var closed := closeCursor(cs[i]);
        if closed.Fail? {
          return Fail(CloseFailure(closed.error));
        }
        i := i + 1;
      }
      assert cs[..i] == cs;
      cursorList := Some([]);
      r := Pass;
    }

    /**
     * close: the executor is closed (rolling back when a commit or rollback
     * would be required), then the cursors, and only then is the session
     * clean.  An executor failure propagates unwrapped and skips the rest.
     */
    method Close(outcome: Outcome, closeCursor: Cursor -> Outcome) returns (r: Outcome)
      modifies this
      ensures executorCalls == old(executorCalls) + [CloseCall(old(CommitOrRollbackRequired(false)))]
      ensures outcome.Fail? ==>
        r == outcome && dirty == old(dirty) && cursorList == old(cursorList) && closeAttempts == old(closeAttempts)
      ensures var cs := old(Cursors());
        var k := ClosedBeforeFailure(cs, closeCursor);
        && (outcome.Pass? && k == |cs| ==> r == Pass && !dirty && closeAttempts == old(closeAttempts) + cs)
        && (outcome.Pass? && k == |cs| && cs != [] ==> cursorList == Some([]))
        && (outcome.Pass? && cs == [] ==> cursorList == old(cursorList))
        && (outcome.Pass? && k < |cs| ==>
              r == Fail(CloseFailure(closeCursor(cs[k]).error)) && dirty == old(dirty)
              && closeAttempts == old(closeAttempts) + cs[..k + 1] && cursorList == old(cursorList))
    {
      executorCalls := executorCalls + [CloseCall(CommitOrRollbackRequired(false))];
      if outcome.Fail? {
        return outcome;
      }
      r := CloseCursors(closeCursor);
      if r.Pass? {
        dirty := false;
      }
    }
  }
}

/** The scope chain (rlok_lib/src/environment.rs). `Environment` derives `Clone`
    and owns its parent through a `Box`, so it is a plain recursive value here;
    `define` and `assign` return the updated environment. */
module Environments {
  import opened Wrappers
  import opened Tokens
  import opened Ast
  import opened Errors

  datatype Environment = Environment(values: map<string, LitType>, enclosing: Option<Environment>) {

    /** `Environment::new`: an empty scope under the given parent. */
    static function New(enclosing: Option<Environment>): (e: Environment)
      ensures e.values == map[] && e.enclosing == enclosing
    {
      Environment(map[], enclosing)
    }

    /** `define`: insert into this scope, replacing any binding of the same name. */
    function Define(name: string, value: LitType): (e: Environment)
      ensures e.enclosing == enclosing
      ensures e.values.Keys == values.Keys + {name}
    {
      this.(values := values[name := value])
    }

    /** `get`: look the lexeme up here, then outward. */
    function Get(name: Token): (r: Result<LitType, RuntimeError>)
      ensures r.Err? ==> r.error == UndefinedVariable(name.lexeme)
    {
      if name.lexeme in values then Ok(values[name.lexeme])
      else if enclosing.Some? then enclosing.value.Get(name)
      else Err(UndefinedVariable(name.lexeme))
    }

    /** `assign`: overwrite the nearest binding of the lexeme; never create one. */
    function Assign(name: Token, value: LitType): (r: Result<Environment, RuntimeError>)
      ensures r.Err? ==> r.error == UndefinedVariable(name.lexeme)
      ensures r.Ok? ==> name.lexeme in Defined()
    {
      if name.lexeme in values then Ok(this.(values := values[name.lexeme := value]))
      else if enclosing.Some? then
        match enclosing.value.Assign(name, value)
        case Ok(enc) => Ok(this.(enclosing := Some(enc)))
        case Err(e) => Err(e)
      else Err(UndefinedVariable(name.lexeme))
    }

    /** The scopes of the chain, innermost first. */
    function Scopes(): (s: seq<map<string, LitType>>)
      ensures |s| >= 1 && s[0] == values
    {
      [values] + if enclosing.Some? then enclosing.value.Scopes() else []
    }

    /** Every name bound somewhere on the chain. */
    function Defined(): set<string> {
      values.Keys + if enclosing.Some? then enclosing.value.Defined() else {}
    }
  }

  /** Scope `i` is the innermost scope of `s` that binds `name`. */
  ghost predicate IsNearest(s: seq<map<string, LitType>>, name: string, i: int) {
    0 <= i < |s| && name in s[i] && forall j :: 0 <= j < i ==> name !in s[j]
  }

  /** A name is in `Defined()` exactly when some scope of the chain binds it. */
  lemma {:induction false} DefinedIsSomeScope(env: Environment, name: string)
    ensures name in env.Defined() <==> exists i :: 0 <= i < |env.Scopes()| && name in env.Scopes()[i]
  {
    var s := env.Scopes();
    if name in env.Defined() {
      if name in env.values {
        assert name in s[0];
      } else {
        var enc := env.enclosing.value;
        DefinedIsSomeScope(enc, name);
        var i :| 0 <= i < |enc.Scopes()| && name in enc.Scopes()[i];
        assert s[i + 1] == enc.Scopes()[i];
      }
    }
    forall i | 0 <= i < |s| && name in s[i]
      ensures name in env.Defined()
    {
      ScopeIsDefined(env, name, i);
    }
  }

  lemma {:induction false} ScopeIsDefined(env: Environment, name: string, i: nat)
    requires i < |env.Scopes()| && name in env.Scopes()[i]
    ensures name in env.Defined()
  {
    if i > 0 {
      var enc := env.enclosing.value;
      assert env.Scopes()[i] == enc.Scopes()[i - 1];
      ScopeIsDefined(enc, name, i - 1);
    }
  }

  /** `get` succeeds exactly when some scope binds the name, and then yields the
      value of the innermost such scope. */
  lemma {:induction false} GetFindsNearest(env: Environment, name: Token)
    ensures env.Get(name).Ok? <==> name.lexeme in env.Defined()
    ensures env.Get(name).Ok? ==>
      exists i :: IsNearest(env.Scopes(), name.lexeme, i) && env.Get(name).value == env.Scopes()[i][name.lexeme]
  {
    var s := env.Scopes();
    if name.lexeme in env.values {
      assert IsNearest(s, name.lexeme, 0);
    } else if env.enclosing.Some? {
      var enc := env.enclosing.value;
      GetFindsNearest(enc, name);
      var t := enc.Scopes();
      assert s == [env.values] + t;
      if enc.Get(name).Ok? {
        var i :| IsNearest(t, name.lexeme, i) && enc.Get(name).value == t[i][name.lexeme];
        assert IsNearest(s, name.lexeme, i + 1);
      }
    }
  }

  /** When the name is not local, `get` answers exactly as the enclosing scope does. */
  lemma GetDelegatesOutward(env: Environment, name: Token)
    requires name.lexeme !in env.values && env.enclosing.Some?
    ensures env.Get(name) == env.enclosing.value.Get(name)
  {
  }

  /** After `define(n, v)`, `get(n)` on the same environment yields `v`. */
  lemma DefineThenGet(env: Environment, name: Token, value: LitType)
    ensures env.Define(name.lexeme, value).Get(name) == Ok(value)
  {
  }

  /** `define` changes only the innermost scope, and only at the defined name. */
  lemma DefineTouchesOnlyLocalScope(env: Environment, name: string, value: LitType)
    ensures env.Define(name, value).Scopes() == env.Scopes()[0 := env.values[name := value]]
  {
    var e := env.Define(name, value);
    if env.enclosing.Some? {
      assert e.Scopes() == [e.values] + env.enclosing.value.Scopes();
    }
  }

  /** `assign` fails exactly when no scope binds the name; on success it updates the
      nearest binding scope at that name and leaves every other scope as it was. */
  lemma {:induction false} AssignUpdatesNearest(env: Environment, name: Token, value: LitType)
    ensures env.Assign(name, value).Err? <==> name.lexeme !in env.Defined()
    ensures env.Assign(name, value).Ok? ==>
      exists i :: IsNearest(env.Scopes(), name.lexeme, i) &&
        env.Assign(name, value).value.Scopes() == env.Scopes()[i := env.Scopes()[i][name.lexeme := value]]
  {
    var s := env.Scopes();
    var n := name.lexeme;
    if n in env.values {
      assert IsNearest(s, n, 0);
      var e := env.Assign(name, value).value;
      if env.enclosing.Some? {
        assert e.Scopes() == [e.values] + env.enclosing.value.Scopes();
      }
      assert e.Scopes() == s[0 := s[0][n := value]];
    } else if env.enclosing.Some? {
      var enc := env.enclosing.value;
      AssignUpdatesNearest(enc, name, value);
      var t := enc.Scopes();
      assert s == [env.values] + t;
      if enc.Assign(name, value).Ok? {
        var enc' := enc.Assign(name, value).value;
        var i :| IsNearest(t, n, i) && enc'.Scopes() == t[i := t[i][n := value]];
        assert IsNearest(s, n, i + 1);
        var e := env.Assign(name, value).value;
        assert e.Scopes() == [env.values] + enc'.Scopes();
        assert e.Scopes() == s[i + 1 := s[i + 1][n := value]];
      }
    }
  }

  /** `assign` creates no binding: the set of bound names is unchanged. */
  lemma {:induction false} AssignKeepsDefined(env: Environment, name: Token, value: LitType)
    requires env.Assign(name, value).Ok?
    ensures env.Assign(name, value).value.Defined() == env.Defined()
  {
    if name.lexeme !in env.values {
      AssignKeepsDefined(env.enclosing.value, name, value);
    }
  }

  /** After a successful `assign(n, v)`, `get(n)` yields `v`. */
  lemma {:induction false} AssignThenGet(env: Environment, name: Token, value: LitType)
    requires env.Assign(name, value).Ok?
    ensures env.Assign(name, value).value.Get(name) == Ok(value)
  {
    if name.lexeme !in env.values {
      AssignThenGet(env.enclosing.value, name, value);
    }
  }
}

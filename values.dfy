/**
 * The Ruby values that flow through the settings pipeline: keys, stored
 * settings, coerced results, defaults and missing-key actions, together with
 * the exceptions the pipeline can raise.
 */
module Values {

  datatype Option<+T> = None | Some(value: T)

  /** The exact value of a decimal literal, mantissa * 10^exponent. */
  datatype Decimal = Decimal(mantissa: int, exponent: int)

  /**
   * A Ruby object as far as the pipeline can tell them apart. Strings and
   * symbols are both text; a Hash is keyed by symbol names; a Proc is an
   * object that responds to `call`, identified by `id`.
   */
  datatype Value =
    | Nil
    | Bool(b: bool)
    | Int(i: int)
    | Flt(f: Decimal)
    | Str(s: string)
    | Sym(name: string)
    | List(items: seq<Value>)
    | Hash(entries: map<string, Value>)
    | Proc(id: nat)
    | Other(id: nat)

  /** Ruby truthiness: everything except nil and false. */
  predicate Truthy(v: Value) {
    !(v.Nil? || v == Bool(false))
  }

  /** The exceptions raised along the pipeline, one per distinct cause. */
  datatype Error =
    | InvalidKeyKind          // Base#split: key must either be a string or an array
    | NotImplemented          // Base#get: needs to be implemented by subclass
    | NoMethod                // a method called on an object that lacks it (nil.new, 1.to_sym, nil.upcase)
    | NotDiggable             // dig without arguments, or through a value that has no #dig
    | NotAName                // const_get(nil): TypeError, not rescued by the Constants handler
    | UninitializedConstant(name: string)  // Object.const_get of the Config gem object
    | WrongArguments          // Class#new with keyword params the class does not take
    | UnsupportedHandler      // Settings#initialize_handler: not a string, class or instance
    | MissingKeyRaised(key: Value)    // the :raise missing-key action
    | UnknownAction(action: Value)    // an on_missing_key entry that is neither callable nor known

  /** Either a normal result or a raised exception; usable with `:-`. */
  datatype Outcome<+T> = Ok(value: T) | Raised(error: Error) {
    predicate IsFailure() {
      Raised?
    }

    function PropagateFailure<U>(): Outcome<U>
      requires Raised?
    {
      Raised(error)
    }

    function Extract(): T
      requires Ok?
    {
      value
    }
  }

  /**
   * The constants the Ruby runtime can resolve, standing in for reflection:
   * `globals` answers `Object.const_get(name)`, `modules` answers
   * `path.safe_constantize` with the module's identity, and `members`
   * answers `klass.const_get(name)` for that module. A missing entry is a
   * NameError (or nil from `safe_constantize`).
   */
  datatype ConstantTable = ConstantTable(
    globals: map<string, Value>,
    modules: map<string, nat>,
    members: map<nat, map<string, Value>>)
  {
    /** `Object.const_get(name)`; None when it raises NameError. */
    function Global(name: string): Option<Value> {
      if name in globals then Some(globals[name]) else None
    }

    /** `path.safe_constantize`: the module the path names, if any. */
    function Constantize(path: string): Option<nat> {
      if path in modules then Some(modules[path]) else None
    }

    /** `klass.const_get(name)`; None when it raises NameError. */
    function Member(klass: nat, name: string): Option<Value> {
      if klass in members && name in members[klass] then Some(members[klass][name]) else None
    }
  }
}

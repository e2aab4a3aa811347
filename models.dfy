/**
 * Shared definitions and the two small helpers of graviton/models.py: which program a
 * dry run executes, and the defaults of an application-call description.
 */
module Models {
  import opened Wrappers
  import opened PyModel

  /** `encode_address(bytes(32))`: the all-zero 32-byte address in its text form. */
  const ZERO_ADDRESS: string := "AAAAAAAAAAAAAAAAAAAAAAAAAAAAAAAAAAAAAAAAAAAAAAAAAAAAY5HFKQ"

  datatype ExecutionMode = Signature | Application

  /** `OnComplete.ClearStateOC` */
  const CLEAR_STATE_OC: int := 3

  /** The `app` argument of `get_run_mode`: absent, a dict, or an object with an `on_complete` attribute. */
  datatype AppArg = NoApp | AppDict(entries: map<string, PyValue>) | AppObj(onComplete: PyValue)

  /** The on-complete value the mode is read from: `app.get("on_complete")` or `app.on_complete`. */
  function OnCompleteOf(app: AppArg): PyValue
    requires !app.NoApp?
  {
    match app
    case AppDict(m) => if "on_complete" in m then m["on_complete"] else PyNone
    case AppObj(oc) => oc
  }

  /** `get_run_mode(app)`: "lsig" without an app, else "clearp" for ClearState and "approv" for anything else. */
  function GetRunMode(app: AppArg): (mode: string)
    ensures mode == "lsig" <==> app.NoApp?
    ensures mode == "clearp" <==> !app.NoApp? && OnCompleteOf(app) == PyInt(CLEAR_STATE_OC)
    ensures mode == "approv" <==> !app.NoApp? && OnCompleteOf(app) != PyInt(CLEAR_STATE_OC)
  {
    if app.NoApp? then "lsig"
    else
      if OnCompleteOf(app) == PyInt(CLEAR_STATE_OC) then "clearp" else "approv"
  }

  /** A dict and an object carrying the same on-complete value select the same program. */
  lemma RunModeDictObjectAgree(m: map<string, PyValue>)
    ensures GetRunMode(AppDict(m)) == GetRunMode(AppObj(if "on_complete" in m then m["on_complete"] else PyNone))
  {
  }

  /** The attributes of an `App`. */
  datatype AppField = Creator | Round | AppIdx | OnComplete | Args | Accounts | GlobalState

  /** The attribute a keyword names, if `hasattr(App(), key)` (dataclass fields only). */
  function FieldNamed(key: string): (f: Option<AppField>)
    ensures f.Some? ==> FieldName(f.value) == key
  {
    if key == "creator" then Some(Creator)
    else if key == "round" then Some(Round)
    else if key == "app_idx" then Some(AppIdx)
    else if key == "on_complete" then Some(OnComplete)
    else if key == "args" then Some(Args)
    else if key == "accounts" then Some(Accounts)
    else if key == "global_state" then Some(GlobalState)
    else None
  }

  function FieldName(f: AppField): string
  {
    match f
    case Creator => "creator"
    case Round => "round"
    case AppIdx => "app_idx"
    case OnComplete => "on_complete"
    case Args => "args"
    case Accounts => "accounts"
    case GlobalState => "global_state"
  }

  lemma FieldNamesRoundTrip(f: AppField)
    ensures FieldNamed(FieldName(f)) == Some(f)
  {
  }

  /** The dataclass defaults. */
  function DefaultValue(f: AppField): PyValue
  {
    match f
    case Creator => PyStr(ZERO_ADDRESS)
    case AppIdx => PyInt(0)
    case OnComplete => PyInt(0)
    case _ => PyNone
  }

  /** What `App.factory(**kwargs)` leaves in attribute `f`: the last non-None value given for it, else the default. */
  function FactoryValue(kwargs: seq<(string, PyValue)>, f: AppField): (v: PyValue)
    ensures (forall i :: 0 <= i < |kwargs| ==> kwargs[i].0 != FieldName(f) || kwargs[i].1 == PyNone) ==> v == DefaultValue(f)
  {
    if kwargs == [] then DefaultValue(f)
    else
      var last := kwargs[|kwargs| - 1];
      if FieldNamed(last.0) == Some(f) && last.1 != PyNone then last.1
      else FactoryValue(kwargs[..|kwargs| - 1], f)
  }

  /** Application program parameters, updated attribute by attribute. */
  class App {
    var creator: PyValue
    var round: PyValue
    var appIdx: PyValue
    var onComplete: PyValue
    var args: PyValue
    var accounts: PyValue
    var globalState: PyValue

    function Get(f: AppField): PyValue
      reads this
    {
      match f
      case Creator => creator
      case Round => round
      case AppIdx => appIdx
      case OnComplete => onComplete
      case Args => args
      case Accounts => accounts
      case GlobalState => globalState
    }

    /** `App()`: creator ZERO_ADDRESS, round None, app_idx 0, on_complete 0, the rest None. */
    constructor()
      ensures forall f :: Get(f) == DefaultValue(f)
    {
      creator := PyStr(ZERO_ADDRESS);
      round := PyNone;
      appIdx := PyInt(0);
      onComplete := PyInt(0);
      args := PyNone;
      accounts := PyNone;
      globalState := PyNone;
    }

    /** `setattr(self, FieldName(f), v)` */
    method Set(f: AppField, v: PyValue)
      modifies this
      ensures Get(f) == v
      ensures forall g :: g != f ==> Get(g) == old(Get(g))
    {
      match f
      case Creator => creator := v;
      case Round => round := v;
      case AppIdx => appIdx := v;
      case OnComplete => onComplete := v;
      case Args => args := v;
      case Accounts => accounts := v;
      case GlobalState => globalState := v;
    }

    /** `App.factory(**kwargs)`: only existing attributes, and only non-None values, are set. */
    static method Factory(kwargs: seq<(string, PyValue)>) returns (app: App)
      ensures fresh(app)
      ensures forall f :: app.Get(f) == FactoryValue(kwargs, f)
    {
      app := new App();
      var i := 0;
      while i < |kwargs|
        invariant 0 <= i <= |kwargs|
        invariant forall f :: app.Get(f) == FactoryValue(kwargs[..i], f)
        modifies app
      {
        var (key, val) := kwargs[i];
        assert kwargs[..i + 1][..i] == kwargs[..i];
        var field := FieldNamed(key);
        if field.Some? && val != PyNone {
          app.Set(field.value, val);
        }
        i := i + 1;
      }
      assert kwargs[..|kwargs|] == kwargs;
    }
  }
}

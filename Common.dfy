/** Shared vocabulary of the baofit model: failure-carrying results, the
    multipole/angle coordinate of a bin, the named fit parameters every
    correlation model owns, and the minimizer's result record.

    The parameter bookkeeping (defining a parameter, updating values, the
    per-parameter "changed" flags) belongs to the parameter library the models
    are built on; it is stated here once so that every model shares it. */
module Common {

  datatype Option<T> = None | Some(value: T)

  /** A value, or the error the source would have thrown. */
  datatype Result<T, E> = Ok(value: T) | Err(error: E)

  /** The even Legendre multipoles the models are evaluated at. */
  datatype Multipole = Monopole | Quadrupole | Hexadecapole

  /** The multipole as the integer ell the source prints. */
  function Ell(m: Multipole): (ell: int)
    ensures ell in {0, 2, 4}
  {
    match m
    case Monopole => 0
    case Quadrupole => 2
    case Hexadecapole => 4
  }

  /** The angular coordinate of a bin: a cosine mu, or a multipole. The source
      has one `evaluate` overload for each. */
  datatype Coord = Mu(mu: real) | Pole(multipole: Multipole)

  /** One named fit parameter: current value, nominal error, floating or fixed. */
  datatype Parameter = Parameter(name: string, value: real, error: real, floating: bool)

  /** All parameter values (floating and fixed), in index order. */
  function Values(ps: seq<Parameter>): (vs: seq<real>)
    ensures |vs| == |ps|
    ensures forall i :: 0 <= i < |ps| ==> vs[i] == ps[i].value
  {
    seq(|ps|, i requires 0 <= i < |ps| => ps[i].value)
  }

  /** All parameter errors, in index order. */
  function Errors(ps: seq<Parameter>): (es: seq<real>)
    ensures |es| == |ps|
    ensures forall i :: 0 <= i < |ps| ==> es[i] == ps[i].error
  {
    seq(|ps|, i requires 0 <= i < |ps| => ps[i].error)
  }

  /** The values of the floating parameters only, in index order. */
  function FloatingValues(ps: seq<Parameter>): (vs: seq<real>)
    ensures |vs| <= |ps|
  {
    if ps == [] then []
    else (if ps[0].floating then [ps[0].value] else []) + FloatingValues(ps[1..])
  }

  /** Overwrites every parameter value, keeping names, errors and status. */
  function SetValues(ps: seq<Parameter>, vs: seq<real>): (r: seq<Parameter>)
    requires |vs| == |ps|
    ensures |r| == |ps| && Values(r) == vs
    ensures forall i :: 0 <= i < |ps| ==> r[i] == ps[i].(value := vs[i])
  {
    seq(|ps|, i requires 0 <= i < |ps| => ps[i].(value := vs[i]))
  }

  /** Overwriting the values twice is overwriting them with the second ones. */
  lemma SetValuesTwice(ps: seq<Parameter>, a: seq<real>, b: seq<real>)
    requires |a| == |ps| && |b| == |ps|
    ensures SetValues(SetValues(ps, a), b) == SetValues(ps, b)
  {
  }

  /** Overwriting the values with their own values changes nothing. */
  lemma SetValuesOwn(ps: seq<Parameter>)
    ensures SetValues(ps, Values(ps)) == ps
  {
  }

  /** The names of the parameters, in index order. */
  function Names(ps: seq<Parameter>): (ns: seq<string>)
    ensures |ns| == |ps|
    ensures forall i :: 0 <= i < |ps| ==> ns[i] == ps[i].name
  {
    seq(|ps|, i requires 0 <= i < |ps| => ps[i].name)
  }

  /** Index of the first parameter called `name`: the lookup behind every
      by-name parameter read. */
  function FindIndex(ps: seq<Parameter>, name: string): (r: Option<nat>)
    ensures r.Some? ==> r.value < |ps| && ps[r.value].name == name
    ensures r.Some? ==> forall j :: 0 <= j < r.value ==> ps[j].name != name
    ensures r.None? <==> forall j :: 0 <= j < |ps| ==> ps[j].name != name
  {
    if ps == [] then None
    else if ps[0].name == name then Some(0)
    else match FindIndex(ps[1..], name)
      case None => None
      case Some(k) => Some(k + 1)
  }

  /** With pairwise distinct names, looking up a parameter's name finds that
      parameter itself. */
  lemma DistinctNamesLookup(ps: seq<Parameter>)
    requires forall i, j :: 0 <= i < j < |ps| ==> ps[i].name != ps[j].name
    ensures forall i :: 0 <= i < |ps| ==> FindIndex(ps, ps[i].name) == Some(i)
  {
    forall i | 0 <= i < |ps| ensures FindIndex(ps, ps[i].name) == Some(i) {
      var k := FindIndex(ps, ps[i].name);
      assert k.Some?;
      if k.value > i {
        assert false;
      }
    }
  }

  /** The value of the first parameter called `name`. */
  function ValueOf(ps: seq<Parameter>, name: string): real
    requires exists j :: 0 <= j < |ps| && ps[j].name == name
  {
    ps[FindIndex(ps, name).value].value
  }

  /** Parameter values together with one "changed since the last reset" flag
      per parameter. */
  datatype ParameterState = ParameterState(params: seq<Parameter>, changed: seq<bool>)
  {
    ghost predicate WellFormed() {
      |changed| == |params|
    }
  }

  /** Defines a new floating parameter at the end of the list; a parameter
      that has never been evaluated counts as changed. */
  function Define(s: ParameterState, name: string, value: real, error: real): (r: ParameterState)
    ensures r.params == s.params + [Parameter(name, value, error, true)]
    ensures r.changed == s.changed + [true]
  {
    ParameterState(s.params + [Parameter(name, value, error, true)], s.changed + [true])
  }

  /** Installs a full vector of values; a parameter becomes changed when its
      value differs, and stays changed until the next reset. */
  function Update(s: ParameterState, values: seq<real>): (r: ParameterState)
    requires s.WellFormed() && |values| == |s.params|
    ensures r.WellFormed() && Values(r.params) == values
    ensures Names(r.params) == Names(s.params)
    ensures forall i :: 0 <= i < |values| ==>
      r.changed[i] == (s.changed[i] || s.params[i].value != values[i])
  {
    ParameterState(SetValues(s.params, values),
      seq(|values|, i requires 0 <= i < |values| => s.changed[i] || s.params[i].value != values[i]))
  }

  /** True when some parameter is flagged as changed. */
  predicate AnyChanged(s: ParameterState) {
    true in s.changed
  }

  /** Installing the values a state already holds changes no flag. */
  lemma UpdateSameValues(s: ParameterState)
    requires s.WellFormed()
    ensures Update(s, Values(s.params)) == s
  {
    var u := Update(s, Values(s.params));
    assert u.changed == s.changed;
    assert u.params == s.params;
  }

  /** After an evaluation's update and reset, installing the same values
      again flags nothing as changed. */
  lemma RepeatedUpdateUnchanged(s: ParameterState, values: seq<real>)
    requires s.WellFormed() && |values| == |s.params|
    ensures !AnyChanged(Update(ResetChanged(Update(s, values)), values))
  {
    var t := ResetChanged(Update(s, values));
    UpdateSameValues(t);
  }

  /** Without the reset (an evaluation that failed), installing the same
      values again keeps every flag, so whatever changed is still seen as
      changed by the next evaluation. */
  lemma RepeatedUpdateKeepsFlags(s: ParameterState, values: seq<real>)
    requires s.WellFormed() && |values| == |s.params|
    ensures Update(Update(s, values), values) == Update(s, values)
    ensures AnyChanged(Update(Update(s, values), values)) == AnyChanged(Update(s, values))
  {
    UpdateSameValues(Update(s, values));
  }

  /** Clears every changed flag, keeping the values. */
  function ResetChanged(s: ParameterState): (r: ParameterState)
    ensures r.params == s.params && |r.changed| == |s.changed|
    ensures !AnyChanged(r)
  {
    ParameterState(s.params, seq(|s.changed|, _ => false))
  }

  /** What the minimizer returns: the parameters at the minimum, the minimized
      -log(likelihood) and whether the fit succeeded. */
  datatype FunctionMinimum = FunctionMinimum(parameters: seq<Parameter>, minValue: real, ok: bool)
}

/**
 * Argument translation for hybrid commands: recognising text-command
 * converters, the transform that the synthesised application-command
 * transformer runs, and the rewrite of a callback's signature that swaps a
 * converter annotation for such a transformer.
 */
module Converters {
  import opened Errors

  /** `is_converter`: a Converter subclass or an instance of one. */
  predicate IsConverter(c: Converter): (r: bool)
    // any other class or object is not a converter
    ensures r <==> !(c.kind == OtherClass || c.kind == OtherObject)
  {
    c.kind.ConverterClass? || c.kind.ConverterObject?
  }

  /**
   * The condition under which `replace_parameters` swaps the annotation: a
   * converter that does not already carry the transformer marker.
   */
  predicate NeedsTransformer(c: Converter): (r: bool)
    ensures r ==> IsConverter(c)
    // an object that already carries the marker keeps its annotation
    ensures c.transformerMarker ==> !r
    ensures IsConverter(c) && !c.transformerMarker ==> r
  {
    IsConverter(c) && !c.transformerMarker
  }

  /** Which `convert` the transform calls. */
  datatype Route =
    | BoundConvert        // the class's own `convert`, already bound
    | FreshInstanceConvert // `convert` on a newly made instance of the class
    | InstanceConvert     // `convert` on the given instance
    | NoConvert           // neither a converter class nor instance: nothing is called

  datatype Transformed = Transformed(route: Route, outcome: Outcome)

  /**
   * The `transform` of the transformer made by `make_converter_transformer`.
   * `convert` is how the chosen `convert` call (including making the fresh
   * instance, where there is one) finished; it is ignored on NoConvert.
   */
  function Transform(converter: Converter, convert: Outcome): (r: Transformed)
    ensures r.route == NoConvert <==> !IsConverter(converter)
    ensures r.route == BoundConvert <==> converter.kind == ConverterClass(true)
    ensures r.route == FreshInstanceConvert <==> converter.kind == ConverterClass(false)
    ensures !IsConverter(converter) ==> r.outcome == Returned(PyNone)
    // a successful conversion is returned as it is
    ensures IsConverter(converter) && convert.Returned? ==> r.outcome == convert
    // a CommandError propagates unchanged
    ensures IsConverter(converter) && convert.Raised? && IsCommandError(convert.error) ==>
              r.outcome == convert
    // any other Exception becomes a ConversionError carrying the converter and the original
    ensures IsConverter(converter) && convert.Raised? && !IsCommandError(convert.error) ==>
              r.outcome == Raised(ConversionError(converter, convert.error))
    // whatever leaves the transform is a CommandError that is, or is caused by, the original
    ensures r.outcome.Raised? ==>
              && convert.Raised?
              && IsCommandError(r.outcome.error)
              && (r.outcome.error == convert.error || Cause(r.outcome.error) == Some(convert.error))
  {
    var route :=
      match converter.kind
      case ConverterClass(bound) => if bound then BoundConvert else FreshInstanceConvert
      case ConverterObject => InstanceConvert
      case _ => NoConvert;
    if route == NoConvert then
      Transformed(route, Returned(PyNone))
    else
      match convert
      case Returned(_) => Transformed(route, convert)
      case Raised(e) =>
        if IsCommandError(e) then Transformed(route, convert)
        else Transformed(route, Raised(ConversionError(converter, e)))
  }

  /** The annotation of a signature parameter. */
  datatype Annotation =
    | Declared(id: nat)                          // whatever the callback declared
    | ConverterTransformer(converter: Converter) // a transformer synthesised for `converter`

  /** An `inspect.Parameter`: `replace` keeps everything but the annotation. */
  datatype SigParam = SigParam(name: string, annotation: Annotation, default: Option<PyObj>)

  /** A text-command parameter, as far as the rewrite looks at it. */
  datatype Parameter = Parameter(name: string, converter: Converter)

  /** Keys of a dictionary are unique. */
  ghost predicate DistinctParameters(ps: seq<Parameter>) {
    forall i, j :: 0 <= i < j < |ps| ==> ps[i].name != ps[j].name
  }

  /** A signature has no two parameters of the same name. */
  ghost predicate DistinctSignature(sig: seq<SigParam>) {
    forall i, j :: 0 <= i < j < |sig| ==> sig[i].name != sig[j].name
  }

  ghost predicate InSignature(sig: seq<SigParam>, name: string) {
    exists i :: 0 <= i < |sig| && sig[i].name == name
  }

  /** The lookup `params[name]` fails for a parameter the rewrite must replace. */
  ghost predicate Unmatched(p: Parameter, sig: seq<SigParam>) {
    NeedsTransformer(p.converter) && !InSignature(sig, p.name)
  }

  /** The text-command parameter called `name`, the last one if there are several. */
  function Lookup(ps: seq<Parameter>, name: string): (r: Option<Parameter>)
    ensures r.Some? ==> r.value in ps && r.value.name == name
    ensures r.None? ==> forall j :: 0 <= j < |ps| ==> ps[j].name != name
  {
    if |ps| == 0 then None
    else if ps[|ps| - 1].name == name then Some(ps[|ps| - 1])
    else Lookup(ps[..|ps| - 1], name)
  }

  /** What the rewrite makes of one signature parameter. */
  function Rewritten(s: SigParam, ps: seq<Parameter>): (r: SigParam)
    ensures r.name == s.name && r.default == s.default
    ensures r.annotation != s.annotation ==>
              exists p :: p in ps && p.name == s.name && NeedsTransformer(p.converter)
                          && r.annotation == ConverterTransformer(p.converter)
  {
    match Lookup(ps, s.name)
    case Some(p) =>
      if NeedsTransformer(p.converter) then s.(annotation := ConverterTransformer(p.converter)) else s
    case None => s
  }

  /** The position of `name` in `params`, or `|params|` when it is absent. */
  function IndexOf(params: seq<SigParam>, name: string): (i: nat)
    ensures i <= |params|
    ensures i < |params| ==> params[i].name == name
    ensures i == |params| ==> forall j :: 0 <= j < |params| ==> params[j].name != name
  {
    if |params| == 0 then 0
    else if params[0].name == name then 0
    else 1 + IndexOf(params[1..], name)
  }

  lemma {:induction false} LookupAbsent(ps: seq<Parameter>, k: nat)
    requires DistinctParameters(ps) && k < |ps|
    ensures Lookup(ps[..k], ps[k].name).None?
  {
  }

  lemma {:induction false} LookupFinds(ps: seq<Parameter>, j: nat)
    requires DistinctParameters(ps) && j < |ps|
    ensures Lookup(ps, ps[j].name) == Some(ps[j])
  {
    if j < |ps| - 1 {
      LookupFinds(ps[..|ps| - 1], j);
    }
  }

  /**
   * A signature parameter whose name a text-command parameter carries gets
   * the transformer exactly when that parameter's converter needs one.
   */
  lemma RewrittenByParameter(s: SigParam, ps: seq<Parameter>, j: nat)
    requires DistinctParameters(ps) && j < |ps| && ps[j].name == s.name
    ensures NeedsTransformer(ps[j].converter) ==>
              Rewritten(s, ps) == s.(annotation := ConverterTransformer(ps[j].converter))
    ensures !NeedsTransformer(ps[j].converter) ==> Rewritten(s, ps) == s
  {
    LookupFinds(ps, j);
  }

  /**
   * `replace_parameters`: walks the text-command parameters in order and,
   * for each whose converter needs a transformer, replaces the annotation of
   * the signature parameter of the same name. The list keeps the
   * signature's length and order, and a parameter the rewrite does not touch
   * is returned as it was. A needed name that the signature lacks raises
   * KeyError, for the first such parameter.
   */
  method ReplaceParameters(parameters: seq<Parameter>, signature: seq<SigParam>)
    returns (r: Result<seq<SigParam>>)
    requires DistinctParameters(parameters) && DistinctSignature(signature)
    ensures r.Ok? <==> forall j :: 0 <= j < |parameters| ==> !Unmatched(parameters[j], signature)
    ensures r.Ok? ==>
              && |r.value| == |signature|
              && forall i :: 0 <= i < |signature| ==> r.value[i] == Rewritten(signature[i], parameters)
    ensures r.Err? ==>
              exists j :: 0 <= j < |parameters| && Unmatched(parameters[j], signature)
                          && r.error == KeyError(parameters[j].name)
                          && forall k :: 0 <= k < j ==> !Unmatched(parameters[k], signature)
  {
    var params := signature;
    var k := 0;
    while k < |parameters|
      invariant 0 <= k <= |parameters|
      invariant |params| == |signature|
      invariant forall i :: 0 <= i < |signature| ==> params[i] == Rewritten(signature[i], parameters[..k])
      invariant forall j :: 0 <= j < k ==> !Unmatched(parameters[j], signature)
    {
      var p := parameters[k];
      assert parameters[..k + 1][..k] == parameters[..k];
      LookupAbsent(parameters, k);
      if NeedsTransformer(p.converter) {
        var idx := IndexOf(params, p.name);
        if idx == |params| {
          assert forall i :: 0 <= i < |signature| ==> signature[i].name == params[i].name;
          return Err(KeyError(p.name));
        }
        params := params[idx := params[idx].(annotation := ConverterTransformer(p.converter))];
        assert signature[idx].name == p.name;
      }
      k := k + 1;
    }
    assert parameters[..k] == parameters;
    return Ok(params);
  }
}

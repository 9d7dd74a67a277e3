/** The animation extension: the "txf" attribute handler that animates an
    SVG transform through five pseudo-attributes (tx, ty, sx, sy, r), and
    the animation object's lists of things to call or play when it begins
    or ends.

    An element's own JavaScript properties (where the handler keeps the
    current pseudo-attribute values) are a map from property name to
    number; its "transform" DOM attribute is an optional string. Number to
    string conversion is a parameter. */
module Animate {
  import opened Wrappers

  datatype Attr = TX | TY | SX | SY | R {
    function Name(): string {
      match this
      case TX => "tx"
      case TY => "ty"
      case SX => "sx"
      case SY => "sy"
      case R => "r"
    }

    /** PSEUDO_ATTRIBUTES: the placeholder of the attribute in a template. */
    function Placeholder(): string {
      "#" + Name()
    }

    /** PSEUDO_DEFAULTS: identity transform values. */
    function Default(): real {
      match this
      case TX => 0.0
      case TY => 0.0
      case SX => 1.0
      case SY => 1.0
      case R => 0.0
    }
  }

  /** PSEUDO_ATTRIBUTES_ARRAY: the order in which the handler visits them. */
  const PseudoAttributes: seq<Attr> := [TX, TY, SX, SY, R]

  /** An object holding a number under each pseudo-attribute name. */
  datatype Values = Values(tx: real, ty: real, sx: real, sy: real, r: real) {
    function Get(a: Attr): real {
      match a
      case TX => tx
      case TY => ty
      case SX => sx
      case SY => sy
      case R => r
    }

    function Set(a: Attr, v: real): (w: Values)
      ensures w.Get(a) == v
      ensures forall b: Attr | b != a :: w.Get(b) == Get(b)
    {
      match a
      case TX => this.(tx := v)
      case TY => this.(ty := v)
      case SX => this.(sx := v)
      case SY => this.(sy := v)
      case R => this.(r := v)
    }
  }

  /** An object holding numbers under some pseudo-attribute names. */
  type Pseudo = map<Attr, real>
  /** An element's own numeric properties, by name. */
  type Props = map<string, real>

  lemma AttrsListed(a: Attr)
    ensures a in PseudoAttributes
    ensures PseudoAttributes[Index(a)] == a
  {
  }

  /** Two records agreeing on every pseudo-attribute are equal. */
  lemma ValuesExt(v: Values, w: Values)
    requires forall a: Attr :: v.Get(a) == w.Get(a)
    ensures v == w
  {
    assert v.Get(TX) == w.Get(TX) && v.Get(TY) == w.Get(TY) && v.Get(SX) == w.Get(SX);
    assert v.Get(SY) == w.Get(SY) && v.Get(R) == w.Get(R);
  }

  function Index(a: Attr): (i: nat)
    ensures i < |PseudoAttributes|
  {
    match a
    case TX => 0
    case TY => 1
    case SX => 2
    case SY => 3
    case R => 4
  }

  /** The pseudo-attribute a property name stands for, if any. */
  function AttrNamed(k: string): (r: Option<Attr>)
    ensures r.Some? ==> r.value.Name() == k
  {
    if k == "tx" then Some(TX)
    else if k == "ty" then Some(TY)
    else if k == "sx" then Some(SX)
    else if k == "sy" then Some(SY)
    else if k == "r" then Some(R)
    else None
  }

  /** Names identify pseudo-attributes. */
  lemma NamesDistinct(a: Attr, b: Attr)
    ensures a.Name() == b.Name() <==> a == b
    ensures AttrNamed(a.Name()) == Some(a)
  {
    assert a.Name()[0] == b.Name()[0] ==> a.Name()[|a.Name()| - 1] == b.Name()[|b.Name()| - 1] ==> a == b;
  }

  // ---------------------------------------------------------------------
  // Reading the pseudo-attributes of an element
  // ---------------------------------------------------------------------

  /** The value an element holds for `a`, or the default when it has none. */
  function ValueOr(props: Props, a: Attr): real {
    if a.Name() in props then props[a.Name()] else a.Default()
  }

  /** What getAttribute returns: every pseudo-attribute, from the element
      or by default. */
  function WithDefaults(props: Props): Values {
    Values(ValueOr(props, TX), ValueOr(props, TY), ValueOr(props, SX), ValueOr(props, SY), ValueOr(props, R))
  }

  /** The element's properties after getAttribute has written the default
      of every missing pseudo-attribute in `attrs`, in order. */
  function CompleteOver(props: Props, attrs: seq<Attr>): Props
    decreases |attrs|
  {
    if attrs == [] then props
    else
      var p := CompleteOver(props, attrs[..|attrs| - 1]);
      var a := attrs[|attrs| - 1];
      if a.Name() in p then p else p[a.Name() := a.Default()]
  }

  function Complete(props: Props): Props {
    CompleteOver(props, PseudoAttributes)
  }

  /** Completing over some attributes leaves every other name alone. */
  lemma {:induction false} CompleteOverOther(props: Props, attrs: seq<Attr>, k: string)
    requires forall b | b in attrs :: b.Name() != k
    ensures k in CompleteOver(props, attrs) <==> k in props
    ensures k in props ==> CompleteOver(props, attrs)[k] == props[k]
    decreases |attrs|
  {
    if attrs != [] {
      CompleteOverOther(props, attrs[..|attrs| - 1], k);
    }
  }

  /** Completing never overwrites: every existing property keeps its value,
      and afterwards each attribute in `attrs` has a value, its default
      when it had none. */
  lemma {:induction false} CompleteOverSpec(props: Props, attrs: seq<Attr>)
    ensures forall k | k in props :: k in CompleteOver(props, attrs) && CompleteOver(props, attrs)[k] == props[k]
    ensures forall a | a in attrs ::
      (a.Name() in CompleteOver(props, attrs) && CompleteOver(props, attrs)[a.Name()] == ValueOr(props, a))
    ensures forall k | k in CompleteOver(props, attrs) ::
      k in props || exists a | a in attrs :: a.Name() == k
    decreases |attrs|
  {
    if attrs != [] {
      var init := attrs[..|attrs| - 1];
      var last := attrs[|attrs| - 1];
      CompleteOverSpec(props, init);
      forall a | a in attrs
        ensures a.Name() in CompleteOver(props, attrs) && CompleteOver(props, attrs)[a.Name()] == ValueOr(props, a)
      {
        if a != last {
          assert a in init;
          NamesDistinct(a, last);
        }
      }
      forall k | k in CompleteOver(props, attrs)
        ensures k in props || exists a | a in attrs :: a.Name() == k
      {
        if k != last.Name() {
          assert k in CompleteOver(props, init);
          if k !in props {
            var a :| a in init && a.Name() == k;
            assert a in attrs;
          }
        }
      }
    }
  }

  /** After getAttribute the element holds a value for every
      pseudo-attribute, equal to what getAttribute returned; nothing else
      changed. */
  lemma CompleteHoldsResult(props: Props)
    ensures forall a: Attr :: a.Name() in Complete(props) && Complete(props)[a.Name()] == WithDefaults(props).Get(a)
    ensures forall k | k in props :: k in Complete(props) && Complete(props)[k] == props[k]
  {
    CompleteOverSpec(props, PseudoAttributes);
    forall a: Attr ensures a.Name() in Complete(props) && Complete(props)[a.Name()] == WithDefaults(props).Get(a) {
      AttrsListed(a);
    }
  }

  /** A second getAttribute returns what the first one did and writes
      nothing more. */
  lemma GetAttributeIdempotent(props: Props)
    ensures WithDefaults(Complete(props)) == WithDefaults(props)
    ensures Complete(Complete(props)) == Complete(props)
  {
    CompleteHoldsResult(props);
    CompleteHoldsResult(Complete(props));
    var c := Complete(props);
    CompleteOverSpec(c, PseudoAttributes);
    ValuesExt(WithDefaults(c), WithDefaults(props));
  }

  /** A JavaScript object standing for an element, as far as the handler
      uses it. */
  class Element {
    var props: Props
    var transform: Option<string>

    constructor (props: Props)
      ensures this.props == props && transform == None
    {
      this.props := props;
      transform := None;
    }
  }

  /** getAttribute of the txf handler: read each pseudo-attribute from the
      element, writing the default onto the element when it is missing. */
  method GetAttribute(e: Element) returns (result: Values)
    modifies e`props
    ensures result == WithDefaults(old(e.props))
    ensures e.props == Complete(old(e.props))
  {
    result := Values(0.0, 0.0, 1.0, 1.0, 0.0);
    for i := 0 to |PseudoAttributes|
      invariant e.props == CompleteOver(old(e.props), PseudoAttributes[..i])
      invariant forall j | 0 <= j < |PseudoAttributes| ::
        result.Get(PseudoAttributes[j]) == if j < i then ValueOr(old(e.props), PseudoAttributes[j]) else PseudoAttributes[j].Default()
    {
      var a := PseudoAttributes[i];
      assert PseudoAttributes[..i + 1][..i] == PseudoAttributes[..i];
      forall b | b in PseudoAttributes[..i] ensures b.Name() != a.Name() {
        NamesDistinct(a, b);
      }
      CompleteOverOther(old(e.props), PseudoAttributes[..i], a.Name());
      if a.Name() in e.props {
        result := result.Set(a, e.props[a.Name()]);
      } else {
        e.props := e.props[a.Name() := result.Get(a)];
      }
    }
    assert PseudoAttributes[..|PseudoAttributes|] == PseudoAttributes;
    forall a: Attr ensures result.Get(a) == WithDefaults(old(e.props)).Get(a) {
      AttrsListed(a);
    }
    ValuesExt(result, WithDefaults(old(e.props)));
  }

  // ---------------------------------------------------------------------
  // Interpolation
  // ---------------------------------------------------------------------

  /** The value a fraction `p` of the way from `s` to `e`. */
  function Lerp(s: real, e: real, p: real): real {
    p * e + (1.0 - p) * s
  }

  lemma MulNonNegative(a: real, b: real)
    requires a >= 0.0 && b >= 0.0
    ensures a * b >= 0.0
  {
  }

  /** Progress 0 gives the start, progress 1 the end, and progress in
      between a value between the two. */
  lemma LerpBetween(s: real, e: real, p: real)
    ensures Lerp(s, e, 0.0) == s && Lerp(s, e, 1.0) == e
    ensures 0.0 <= p <= 1.0 && s <= e ==> s <= Lerp(s, e, p) <= e
    ensures 0.0 <= p <= 1.0 && e <= s ==> e <= Lerp(s, e, p) <= s
  {
    if 0.0 <= p <= 1.0 {
      assert Lerp(s, e, p) - s == p * (e - s);
      assert e - Lerp(s, e, p) == (1.0 - p) * (e - s);
      if s <= e {
        MulNonNegative(p, e - s);
        MulNonNegative(1.0 - p, e - s);
      } else {
        assert Lerp(s, e, p) - e == (1.0 - p) * (s - e);
        assert s - Lerp(s, e, p) == p * (s - e);
        MulNonNegative(p, s - e);
        MulNonNegative(1.0 - p, s - e);
      }
    }
  }

  /** The start value of one attribute after interpolate has back-filled
      it: the given one, else the element's, else the default. */
  function FillOne(start: Pseudo, props: Props, a: Attr): real {
    if a in start then start[a] else ValueOr(props, a)
  }

  function FillStart(start: Pseudo, props: Props): Values {
    Values(FillOne(start, props, TX), FillOne(start, props, TY), FillOne(start, props, SX),
           FillOne(start, props, SY), FillOne(start, props, R))
  }

  /** One attribute of interpolate's result: interpolated from the start
      value towards the end value, or the start value when there is no end
      value. */
  function BlendOne(s: real, end: Pseudo, a: Attr, p: real): real {
    if a in end then Lerp(s, end[a], p) else s
  }

  function Blend(start: Values, end: Pseudo, p: real): Values {
    Values(BlendOne(start.tx, end, TX, p), BlendOne(start.ty, end, TY, p), BlendOne(start.sx, end, SX, p),
           BlendOne(start.sy, end, SY, p), BlendOne(start.r, end, R, p))
  }

  /** Back-filling keeps the start values given and otherwise takes what
      getAttribute would return. */
  lemma FillStartSpec(start: Pseudo, props: Props)
    ensures forall a: Attr | a in start :: FillStart(start, props).Get(a) == start[a]
    ensures forall a: Attr | a !in start :: FillStart(start, props).Get(a) == WithDefaults(props).Get(a)
  {
  }

  /** At progress 0 the result is the start values, at progress 1 the end
      value of every attribute that has one; in between, each attribute
      lies between its start and end values. */
  lemma BlendEndpoints(start: Values, end: Pseudo, p: real)
    ensures Blend(start, end, 0.0) == start
    ensures forall a: Attr :: Blend(start, end, 1.0).Get(a) == if a in end then end[a] else start.Get(a)
    ensures 0.0 <= p <= 1.0 ==> forall a: Attr | a in end ::
      (start.Get(a) <= end[a] ==> start.Get(a) <= Blend(start, end, p).Get(a) <= end[a]) &&
      (end[a] <= start.Get(a) ==> end[a] <= Blend(start, end, p).Get(a) <= start.Get(a))
  {
    forall a: Attr
      ensures Blend(start, end, 0.0).Get(a) == start.Get(a)
      ensures Blend(start, end, 1.0).Get(a) == if a in end then end[a] else start.Get(a)
      ensures 0.0 <= p <= 1.0 && a in end ==>
        (start.Get(a) <= end[a] ==> start.Get(a) <= Blend(start, end, p).Get(a) <= end[a]) &&
        (end[a] <= start.Get(a) ==> end[a] <= Blend(start, end, p).Get(a) <= start.Get(a))
    {
      BlendGet(start, end, a, 0.0);
      BlendGet(start, end, a, 1.0);
      BlendGet(start, end, a, p);
      if a in end {
        LerpBetween(start.Get(a), end[a], p);
      }
    }
    ValuesExt(Blend(start, end, 0.0), start);
  }

  /** Each attribute of a blend is blended on its own. */
  lemma BlendGet(start: Values, end: Pseudo, a: Attr, p: real)
    ensures Blend(start, end, p).Get(a) == BlendOne(start.Get(a), end, a, p)
  {
    match a
    case TX =>
    case TY =>
    case SX =>
    case SY =>
    case R =>
  }

  /** The start object of a running animation; interpolate back-fills it. */
  class StartValues {
    var values: Pseudo

    constructor (values: Pseudo)
      ensures this.values == values
    {
      this.values := values;
    }
  }

  /** The start value of one attribute, back-filled into `start` from the
      element or the defaults when missing. */
  method StartValue(start: StartValues, a: Attr, el: Element) returns (s: real)
    modifies start
    ensures s == FillOne(old(start.values), el.props, a)
    ensures start.values == old(start.values)[a := s]
  {
    var given: Option<real> := if a in start.values then Some(start.values[a]) else None;
    if given.None? {
      if a.Name() in el.props {
        given := Some(el.props[a.Name()]);
      }
      if given.None? {
        given := Some(a.Default());
      }
      start.values := start.values[a := given.value];
    } else {
      assert start.values == start.values[a := given.value];
    }
    s := given.value;
  }

  /** interpolate of the txf handler, at progress `p`. */
  method Interpolate(start: StartValues, end: Pseudo, el: Element, p: real) returns (result: Values)
    modifies start
    ensures forall a: Attr :: a in start.values && start.values[a] == FillOne(old(start.values), el.props, a)
    ensures result == Blend(FillStart(old(start.values), el.props), end, p)
  {
    ghost var filled := FillStart(start.values, el.props);
    var acc: Pseudo := map[];
    for i := 0 to |PseudoAttributes|
      invariant forall a: Attr :: a in start.values <==> a in old(start.values) || a in PseudoAttributes[..i]
      invariant forall a: Attr | a in start.values :: start.values[a] == filled.Get(a)
      invariant forall a: Attr :: a in acc <==> a in PseudoAttributes[..i]
      invariant forall a: Attr | a in acc :: acc[a] == BlendOne(filled.Get(a), end, a, p)
    {
      var a := PseudoAttributes[i];
      assert PseudoAttributes[..i + 1] == PseudoAttributes[..i] + [a];
      var s := StartValue(start, a, el);
      assert s == filled.Get(a);
      if a in end {
        acc := acc[a := p * end[a] + (1.0 - p) * s];
      } else {
        acc := acc[a := s];
      }
      assert acc[a] == BlendOne(s, end, a, p);
    }
    assert PseudoAttributes[..|PseudoAttributes|] == PseudoAttributes;
    forall a: Attr ensures a in PseudoAttributes {
      AttrsListed(a);
    }
    result := Values(acc[TX], acc[TY], acc[SX], acc[SY], acc[R]);
  }

  // ---------------------------------------------------------------------
  // String replacement with a string pattern
  // ---------------------------------------------------------------------

  predicate OccursAt(s: string, pat: string, k: nat) {
    k + |pat| <= |s| && s[k..k + |pat|] == pat
  }

  /** The first index at which `pat` occurs in `s` (indexOf). */
  function IndexOf(s: string, pat: string): (r: Option<nat>)
    ensures r.Some? ==> OccursAt(s, pat, r.value)
    ensures r.Some? ==> forall k: nat | k < r.value :: !OccursAt(s, pat, k)
    ensures r.None? ==> forall k: nat :: !OccursAt(s, pat, k)
    decreases |s|
  {
    if |pat| > |s| then None
    else if s[..|pat|] == pat then Some(0)
    else
      var r := IndexOf(s[1..], pat);
      OccursShift(s, pat);
      if r.None? then None else Some(r.value + 1)
  }

  /** An occurrence past the first character is one in the tail. */
  lemma OccursShift(s: string, pat: string)
    requires |s| > 0
    ensures forall k: nat | k >= 1 :: OccursAt(s, pat, k) == OccursAt(s[1..], pat, k - 1)
  {
    forall k: nat | k >= 1 ensures OccursAt(s, pat, k) == OccursAt(s[1..], pat, k - 1) {
      if k + |pat| <= |s| {
        var u, w := s[k..k + |pat|], s[1..][k - 1..k - 1 + |pat|];
        assert forall m | 0 <= m < |pat| :: u[m] == w[m];
        assert u == w;
      }
    }
  }

  /** replace with a string pattern: the first occurrence of `pat` is
      replaced by `rep`; without one, the string is unchanged. */
  function ReplaceFirst(s: string, pat: string, rep: string): string {
    match IndexOf(s, pat)
    case None => s
    case Some(i) => s[..i] + rep + s[i + |pat|..]
  }

  /** Replacing in `a + pat + b`, where `pat` does not start anywhere
      inside `a`, yields `a + rep + b`. */
  lemma ReplaceFirstAt(a: string, pat: string, b: string, rep: string)
    requires forall k: nat | k < |a| :: !OccursAt(a + pat + b, pat, k)
    ensures ReplaceFirst(a + pat + b, pat, rep) == a + rep + b
  {
    var s := a + pat + b;
    assert OccursAt(s, pat, |a|) by {
      assert s[|a|..|a| + |pat|] == pat;
    }
    var i := IndexOf(s, pat).value;
    assert i == |a|;
    assert s[..i] == a && s[i + |pat|..] == b;
  }

  /** A pattern starting with '#' cannot start inside a string free of
      '#'. */
  lemma HashFree(a: string, pat: string, b: string)
    requires |pat| > 0 && pat[0] == '#' && '#' !in a
    ensures forall k: nat | k < |a| :: !OccursAt(a + pat + b, pat, k)
  {
    forall k: nat | k < |a| ensures !OccursAt(a + pat + b, pat, k) {
      assert (a + pat + b)[k] == a[k];
    }
  }

  /** Each (pattern, replacement) pair replaced in turn, first one first. */
  function Substitute(t: string, reps: seq<(string, string)>): string
    decreases |reps|
  {
    if reps == [] then t
    else
      var last := reps[|reps| - 1];
      ReplaceFirst(Substitute(t, reps[..|reps| - 1]), last.0, last.1)
  }

  /** The template given in the animation's documentation. */
  const DocumentedTemplate: string := "translate(#tx,#ty) scale(#sx,#sy) rotate(#r)"

  /** One more pair replaced after the ones before it. */
  lemma SubstituteSnoc(t: string, reps: seq<(string, string)>, i: nat)
    requires i < |reps|
    ensures Substitute(t, reps[..i + 1]) == ReplaceFirst(Substitute(t, reps[..i]), reps[i].0, reps[i].1)
  {
    assert reps[..i + 1][..i] == reps[..i];
  }

  lemma Assoc(x: string, y: string, z: string)
    ensures (x + y) + z == x + (y + z)
  {
  }

  /** A template whose fixed text holds no '#' gets the five pseudo-attribute
      placeholders filled in place, in order, as long as the values written
      contain no '#' either. */
  lemma TemplateFilled(p0: string, p1: string, p2: string, p3: string, p4: string, p5: string,
                       tx: string, ty: string, sx: string, sy: string, r: string)
    requires '#' !in p0 && '#' !in p1 && '#' !in p2 && '#' !in p3 && '#' !in p4
    requires '#' !in tx && '#' !in ty && '#' !in sx && '#' !in sy
    ensures Substitute(p0 + "#tx" + p1 + "#ty" + p2 + "#sx" + p3 + "#sy" + p4 + "#r" + p5,
              [("#tx", tx), ("#ty", ty), ("#sx", sx), ("#sy", sy), ("#r", r)])
            == p0 + tx + p1 + ty + p2 + sx + p3 + sy + p4 + r + p5
  {
    var reps := [("#tx", tx), ("#ty", ty), ("#sx", sx), ("#sy", sy), ("#r", r)];
    var t := p0 + "#tx" + p1 + "#ty" + p2 + "#sx" + p3 + "#sy" + p4 + "#r" + p5;
    assert reps[..0] == [];
    assert reps[..5] == reps;

    // the text after each placeholder, grouped to the right
    var b3 := p4 + ("#r" + p5);
    var b2 := p3 + ("#sy" + b3);
    var b1 := p2 + ("#sx" + b2);
    var b0 := p1 + ("#ty" + b1);
    Assoc(p0 + "#tx" + p1 + "#ty" + p2 + "#sx" + p3 + "#sy" + p4, "#r", p5);
    Assoc(p0 + "#tx" + p1 + "#ty" + p2 + "#sx" + p3 + "#sy", p4, "#r" + p5);
    Assoc(p0 + "#tx" + p1 + "#ty" + p2 + "#sx" + p3, "#sy", b3);
    Assoc(p0 + "#tx" + p1 + "#ty" + p2 + "#sx", p3, "#sy" + b3);
    Assoc(p0 + "#tx" + p1 + "#ty" + p2, "#sx", b2);
    Assoc(p0 + "#tx" + p1 + "#ty", p2, "#sx" + b2);
    Assoc(p0 + "#tx" + p1, "#ty", b1);
    Assoc(p0 + "#tx", p1, "#ty" + b1);
    assert t == p0 + "#tx" + b0;

    SubstituteSnoc(t, reps, 0);
    FillPlaceholder(p0, "#tx", b0, tx);
    var a1 := p0 + tx + p1;
    Assoc(p0 + tx, p1, "#ty" + b1);
    Assoc(a1, "#ty", b1);

    SubstituteSnoc(t, reps, 1);
    FillPlaceholder(a1, "#ty", b1, ty);
    var a2 := a1 + ty + p2;
    Assoc(a1 + ty, p2, "#sx" + b2);
    Assoc(a2, "#sx", b2);

    SubstituteSnoc(t, reps, 2);
    FillPlaceholder(a2, "#sx", b2, sx);
    var a3 := a2 + sx + p3;
    Assoc(a2 + sx, p3, "#sy" + b3);
    Assoc(a3, "#sy", b3);

    SubstituteSnoc(t, reps, 3);
    FillPlaceholder(a3, "#sy", b3, sy);
    var a4 := a3 + sy + p4;
    Assoc(a3 + sy, p4, "#r" + p5);
    Assoc(a4, "#r", p5);

    SubstituteSnoc(t, reps, 4);
    FillPlaceholder(a4, "#r", p5, r);
  }

  /** The documented template, filled. */
  lemma DocumentedTemplateFilled(tx: string, ty: string, sx: string, sy: string, r: string)
    requires '#' !in tx && '#' !in ty && '#' !in sx && '#' !in sy
    ensures Substitute(DocumentedTemplate,
              [("#tx", tx), ("#ty", ty), ("#sx", sx), ("#sy", sy), ("#r", r)])
            == "translate(" + tx + "," + ty + ") scale(" + sx + "," + sy + ") rotate(" + r + ")"
  {
    assert DocumentedTemplate
      == "translate(" + "#tx" + "," + "#ty" + ") scale(" + "#sx" + "," + "#sy" + ") rotate(" + "#r" + ")";
    TemplateFilled("translate(", ",", ") scale(", ",", ") rotate(", ")", tx, ty, sx, sy, r);
  }

  /** Filling one '#' placeholder preceded by text free of '#'. */
  lemma FillPlaceholder(a: string, pat: string, b: string, rep: string)
    requires |pat| > 0 && pat[0] == '#' && '#' !in a
    ensures ReplaceFirst(a + pat + b, pat, rep) == a + rep + b
  {
    HashFree(a, pat, b);
    ReplaceFirstAt(a, pat, b, rep);
  }

  // ---------------------------------------------------------------------
  // Writing the transform
  // ---------------------------------------------------------------------

  /** The placeholder looked up for a property name: the pseudo-attribute's
      own, or "undefined" (what replace makes of a missing pattern) for any
      other name. */
  function PlaceholderOf(k: string): string {
    match AttrNamed(k)
    case Some(a) => a.Placeholder()
    case None => "undefined"
  }

  /** The replacements setAttribute makes for a value object, in its
      property order. */
  function SetReplacements(v: seq<(string, real)>, format: real -> string): (reps: seq<(string, string)>)
    ensures |reps| == |v|
  {
    seq(|v|, i requires 0 <= i < |v| => (PlaceholderOf(v[i].0), format(v[i].1)))
  }

  /** The properties setAttribute records on the element, a later entry
      for the same name winning. */
  function Record(v: seq<(string, real)>): Props
    decreases |v|
  {
    if v == [] then map[]
    else
      var last := v[|v| - 1];
      Record(v[..|v| - 1])[last.0 := last.1]
  }

  /** A recorded name holds the value of its last entry. */
  lemma {:induction false} RecordLastWins(v: seq<(string, real)>, j: nat)
    requires j < |v|
    requires forall l | j < l < |v| :: v[l].0 != v[j].0
    ensures v[j].0 in Record(v) && Record(v)[v[j].0] == v[j].1
    decreases |v|
  {
    if j < |v| - 1 {
      RecordLastWins(v[..|v| - 1], j);
    }
  }

  /** Recording one more entry over a base object updates that one name. */
  lemma RecordStep(base: Props, v: seq<(string, real)>, i: nat)
    requires i < |v|
    ensures base + Record(v[..i + 1]) == (base + Record(v[..i]))[v[i].0 := v[i].1]
  {
    assert v[..i + 1][..i] == v[..i];
  }

  /** The value object of every pseudo-attribute, in handler order, as
      interpolate builds it. */
  function Entries(v: Values): seq<(string, real)> {
    [("tx", v.tx), ("ty", v.ty), ("sx", v.sx), ("sy", v.sy), ("r", v.r)]
  }

  /** Setting a complete value object and getting it back returns it. */
  lemma SetThenGet(props: Props, v: Values)
    ensures WithDefaults(props + Record(Entries(v))) == v
  {
    var es := Entries(v);
    forall a: Attr ensures WithDefaults(props + Record(es)).Get(a) == v.Get(a) {
      var j := Index(a);
      assert es[j] == (a.Name(), v.Get(a));
      forall l | j < l < |es| ensures es[l].0 != es[j].0 {
        NamesDistinct(a, PseudoAttributes[l]);
      }
      RecordLastWins(es, j);
    }
    ValuesExt(WithDefaults(props + Record(es)), v);
  }

  /** setAttribute of the txf handler: with a truthy template, record each
      property of `v` on the element, substitute it into the template, and
      write the result as the element's transform; otherwise do nothing. */
  method SetAttribute(template: Option<string>, e: Element, v: seq<(string, real)>, format: real -> string)
    modifies e
    ensures template.None? || template.value == "" ==> unchanged(e)
    ensures template.Some? && template.value != "" ==>
      && e.props == old(e.props) + Record(v)
      && e.transform == Some(Substitute(template.value, SetReplacements(v, format)))
  {
    if template.Some? && template.value != "" {
      var txf := template.value;
      ghost var reps := SetReplacements(v, format);
      for i := 0 to |v|
        invariant txf == Substitute(template.value, reps[..i])
        invariant e.props == old(e.props) + Record(v[..i])
        invariant e.transform == old(e.transform)
      {
        var p := v[i].0;
        var val := v[i].1;
        SubstituteSnoc(template.value, reps, i);
        txf := ReplaceFirst(txf, PlaceholderOf(p), format(val));
        RecordStep(old(e.props), v, i);
        e.props := e.props[p := val];
      }
      assert v[..|v|] == v && reps[..|v|] == reps;
      e.transform := Some(txf);
    }
  }

  /** A thrown JavaScript exception. */
  datatype Thrown = TypeError

  /** The text applyTransform writes for a pseudo-attribute: the element's
      value, or "undefined" when it has none. */
  function Shown(props: Props, a: Attr, format: real -> string): string {
    if a.Name() in props then format(props[a.Name()]) else "undefined"
  }

  /** The replacements applyTransform makes, in handler order. */
  function TransformReplacements(props: Props, format: real -> string): (reps: seq<(string, string)>)
    ensures |reps| == |PseudoAttributes|
  {
    seq(|PseudoAttributes|, i requires 0 <= i < |PseudoAttributes| =>
      (PseudoAttributes[i].Placeholder(), Shown(props, PseudoAttributes[i], format)))
  }

  /** applyTransform: substitute the element's five values into the
      template and write the transform; an undefined template throws. */
  method ApplyTransform(template: Option<string>, e: Element, format: real -> string)
    returns (r: Result<string, Thrown>)
    modifies e`transform
    ensures template.None? ==> r == Failure(TypeError) && e.transform == old(e.transform)
    ensures template.Some? ==>
      && r == Success(Substitute(template.value, TransformReplacements(e.props, format)))
      && e.transform == Some(r.value)
  {
    if template.None? {
      return Failure(TypeError);
    }
    var txf := template.value;
    ghost var reps := TransformReplacements(e.props, format);
    for i := 0 to |PseudoAttributes|
      invariant txf == Substitute(template.value, reps[..i])
    {
      var a := PseudoAttributes[i];
      var shown := if a.Name() in e.props then format(e.props[a.Name()]) else "undefined";
      SubstituteSnoc(template.value, reps, i);
      txf := ReplaceFirst(txf, a.Placeholder(), shown);
    }
    assert reps[..|PseudoAttributes|] == reps;
    e.transform := Some(txf);
    r := Success(txf);
  }

  /** Once the element holds all five values, applyTransform on the
      documented template writes them in place. */
  lemma DocumentedTransform(props: Props, format: real -> string)
    requires "tx" in props && "ty" in props && "sx" in props && "sy" in props && "r" in props
    requires '#' !in format(props["tx"]) && '#' !in format(props["ty"]) && '#' !in format(props["sx"])
    requires '#' !in format(props["sy"])
    ensures Substitute(DocumentedTemplate, TransformReplacements(props, format))
      == "translate(" + format(props["tx"]) + "," + format(props["ty"]) + ") scale("
         + format(props["sx"]) + "," + format(props["sy"]) + ") rotate(" + format(props["r"]) + ")"
  {
    var reps := TransformReplacements(props, format);
    assert PseudoAttributes[0] == TX && PseudoAttributes[1] == TY && PseudoAttributes[2] == SX;
    assert PseudoAttributes[3] == SY && PseudoAttributes[4] == R;
    assert TX.Placeholder() == "#tx" && TY.Placeholder() == "#ty" && SX.Placeholder() == "#sx";
    assert SY.Placeholder() == "#sy" && R.Placeholder() == "#r";
    assert reps[0] == ("#tx", format(props["tx"])) && reps[1] == ("#ty", format(props["ty"]));
    assert reps[2] == ("#sx", format(props["sx"])) && reps[3] == ("#sy", format(props["sy"]));
    assert reps[4] == ("#r", format(props["r"]));
    assert reps == [("#tx", format(props["tx"])), ("#ty", format(props["ty"])), ("#sx", format(props["sx"])),
                    ("#sy", format(props["sy"])), ("#r", format(props["r"]))];
    DocumentedTemplateFilled(format(props["tx"]), format(props["ty"]), format(props["sx"]),
                             format(props["sy"]), format(props["r"]));
  }

  // ---------------------------------------------------------------------
  // Begin / end registrations
  // ---------------------------------------------------------------------

  /** What can be passed to onEnd / onBegin: a function, an object with an
      `animate` function, or anything else (null, undefined, a number, an
      object without `animate`). */
  datatype Registrant = Function(id: nat) | Animatable(id: nat) | Unusable

  /** One step of the onComplete / onStart dispatch. */
  datatype Invocation = Call(id: nat) | Play(id: nat)

  /** The callback list a sequence of registrations builds. */
  function Functions(rs: seq<Registrant>): seq<nat>
    decreases |rs|
  {
    if rs == [] then []
    else Functions(rs[..|rs| - 1]) + (if rs[|rs| - 1].Function? then [rs[|rs| - 1].id] else [])
  }

  /** The animation list a sequence of registrations builds. */
  function Animatables(rs: seq<Registrant>): seq<nat>
    decreases |rs|
  {
    if rs == [] then []
    else Animatables(rs[..|rs| - 1]) + (if rs[|rs| - 1].Animatable? then [rs[|rs| - 1].id] else [])
  }

  function CountUnusable(rs: seq<Registrant>): nat
    decreases |rs|
  {
    if rs == [] then 0
    else CountUnusable(rs[..|rs| - 1]) + (if rs[|rs| - 1].Unusable? then 1 else 0)
  }

  /** Every registration lands in exactly one list, or in none when it is
      unusable. */
  lemma {:induction false} RegistrationsPartition(rs: seq<Registrant>)
    ensures |Functions(rs)| + |Animatables(rs)| + CountUnusable(rs) == |rs|
    decreases |rs|
  {
    if rs != [] {
      RegistrationsPartition(rs[..|rs| - 1]);
    }
  }

  /** Every registered function is in the callback list, and everything in
      the callback list was registered as a function (likewise for
      animations). */
  lemma {:induction false} RegisteredAreListed(rs: seq<Registrant>)
    ensures forall id :: id in Functions(rs) <==> Function(id) in rs
    ensures forall id :: id in Animatables(rs) <==> Animatable(id) in rs
    decreases |rs|
  {
    if rs != [] {
      var init := rs[..|rs| - 1];
      RegisteredAreListed(init);
      assert rs == init + [rs[|rs| - 1]];
    }
  }

  /** The dispatch loops: every callback in order, then every animation in
      order. */
  method Notify(callbacks: seq<nat>, animations: seq<nat>) returns (calls: seq<Invocation>)
    ensures |calls| == |callbacks| + |animations|
    ensures forall i | 0 <= i < |callbacks| :: calls[i] == Call(callbacks[i])
    ensures forall j | 0 <= j < |animations| :: calls[|callbacks| + j] == Play(animations[j])
  {
    calls := [];
    var i := 0;
    while i < |callbacks|
      invariant 0 <= i <= |callbacks|
      invariant |calls| == i
      invariant forall k | 0 <= k < i :: calls[k] == Call(callbacks[k])
    {
      calls := calls + [Call(callbacks[i])];
      i := i + 1;
    }
    i := 0;
    while i < |animations|
      invariant 0 <= i <= |animations|
      invariant |calls| == |callbacks| + i
      invariant forall k | 0 <= k < |callbacks| :: calls[k] == Call(callbacks[k])
      invariant forall k | 0 <= k < i :: calls[|callbacks| + k] == Play(animations[k])
    {
      calls := calls + [Play(animations[i])];
      i := i + 1;
    }
  }

  /** The animation object as far as begin / end registrations and the
      start handler go. */
  class Animation {
    const id: nat
    var endCallbacks: seq<nat>
    var endAnimations: seq<nat>
    var beginCallbacks: seq<nat>
    var beginAnimations: seq<nat>
    var startHandler: Option<StartHandler>
    /** Everything passed to onEnd / onBegin, oldest first. */
    ghost var endRegistrations: seq<Registrant>
    ghost var beginRegistrations: seq<Registrant>

    /** The four lists are the registrations sorted by kind, and a start
        handler, once made, starts this animation. */
    ghost predicate Valid()
      reads this
    {
      && endCallbacks == Functions(endRegistrations)
      && endAnimations == Animatables(endRegistrations)
      && beginCallbacks == Functions(beginRegistrations)
      && beginAnimations == Animatables(beginRegistrations)
      && (startHandler.Some? ==> startHandler.value.animation == this)
    }

    constructor (id: nat)
      ensures Valid() && this.id == id
      ensures endRegistrations == [] && beginRegistrations == [] && startHandler == None
    {
      this.id := id;
      endCallbacks := [];
      endAnimations := [];
      beginCallbacks := [];
      beginAnimations := [];
      startHandler := None;
      endRegistrations := [];
      beginRegistrations := [];
    }

    /** onEnd: a function joins the callbacks, an object with `animate` the
        animations; anything else is ignored. */
    method OnEnd(x: Registrant)
      requires Valid()
      modifies this`endCallbacks, this`endAnimations, this`endRegistrations
      ensures Valid()
      ensures endRegistrations == old(endRegistrations) + [x]
      ensures endCallbacks == old(endCallbacks) + (if x.Function? then [x.id] else [])
      ensures endAnimations == old(endAnimations) + (if x.Animatable? then [x.id] else [])
    {
      if x.Function? {
        endCallbacks := endCallbacks + [x.id];
      } else if x.Animatable? {
        endAnimations := endAnimations + [x.id];
      }
      endRegistrations := endRegistrations + [x];
      assert endRegistrations[..|endRegistrations| - 1] == old(endRegistrations);
    }

    /** onBegin: as onEnd, for the begin lists. */
    method OnBegin(x: Registrant)
      requires Valid()
      modifies this`beginCallbacks, this`beginAnimations, this`beginRegistrations
      ensures Valid()
      ensures beginRegistrations == old(beginRegistrations) + [x]
      ensures beginCallbacks == old(beginCallbacks) + (if x.Function? then [x.id] else [])
      ensures beginAnimations == old(beginAnimations) + (if x.Animatable? then [x.id] else [])
    {
      if x.Function? {
        beginCallbacks := beginCallbacks + [x.id];
      } else if x.Animatable? {
        beginAnimations := beginAnimations + [x.id];
      }
      beginRegistrations := beginRegistrations + [x];
      assert beginRegistrations[..|beginRegistrations| - 1] == old(beginRegistrations);
    }

    /** The onComplete subscription: what it calls and plays, in order. */
    method OnComplete() returns (calls: seq<Invocation>)
      ensures |calls| == |endCallbacks| + |endAnimations|
      ensures forall i | 0 <= i < |endCallbacks| :: calls[i] == Call(endCallbacks[i])
      ensures forall j | 0 <= j < |endAnimations| :: calls[|endCallbacks| + j] == Play(endAnimations[j])
    {
      calls := Notify(endCallbacks, endAnimations);
    }

    /** The onStart subscription: what it calls and plays, in order. */
    method OnStart() returns (calls: seq<Invocation>)
      ensures |calls| == |beginCallbacks| + |beginAnimations|
      ensures forall i | 0 <= i < |beginCallbacks| :: calls[i] == Call(beginCallbacks[i])
      ensures forall j | 0 <= j < |beginAnimations| :: calls[|beginCallbacks| + j] == Play(beginAnimations[j])
    {
      calls := Notify(beginCallbacks, beginAnimations);
    }

    /** getStartHandler: made on the first call, the same one afterwards. */
    method GetStartHandler() returns (h: StartHandler)
      requires Valid()
      modifies this`startHandler
      ensures Valid()
      ensures h.animation == this && startHandler == Some(h)
      ensures old(startHandler).Some? ==> h == old(startHandler).value
      ensures old(startHandler).None? ==> fresh(h)
    {
      if startHandler.None? {
        var made := new StartHandler(this);
        startHandler := Some(made);
      }
      h := startHandler.value;
    }
  }

  /** The function getStartHandler hands out: invoking it plays its
      animation. */
  class StartHandler {
    const animation: Animation

    constructor (animation: Animation)
      ensures this.animation == animation
    {
      this.animation := animation;
    }

    method Invoke() returns (inv: Invocation)
      ensures inv == Play(animation.id)
    {
      inv := Play(animation.id);
    }
  }

  /** A client run: registrations of every kind, then the end dispatch and
      two requests for the start handler. */
  method RegisterAndComplete() {
    var anim := new Animation(0);
    anim.OnEnd(Animatable(7));
    anim.OnEnd(Function(1));
    anim.OnEnd(Unusable);
    anim.OnEnd(Function(2));
    var calls := anim.OnComplete();
    assert anim.endCallbacks == [1, 2] && anim.endAnimations == [7];
    assert anim.endAnimations[0] == 7;
    assert calls[0] == Call(1) && calls[1] == Call(2) && calls[2] == Play(7);
    assert calls == [Call(1), Call(2), Play(7)];
    var h1 := anim.GetStartHandler();
    var h2 := anim.GetStartHandler();
    assert h1 == h2;
    var inv := h2.Invoke();
    assert inv == Play(0);
  }
}

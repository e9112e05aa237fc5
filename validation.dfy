/**
  The template validator (`DashboardTemplate.IsValid`): a pure check that stops at the first
  failure. It checks, in this order, that the name is not empty, that the display name is not
  empty, and that no grid item of the `sm`, `md`, `lg` and `xl` layouts, taken in that order
  and each item in sequence order, lies beyond its variant's column bound.
*/
module Validation {
  import opened Wrappers
  import opened Templates
  import Decimal

  /** The four breakpoint variants of a template configuration. */
  datatype Variant = Sm | Md | Lg | Xl

  /** The order in which the layouts are checked. */
  function Rank(v: Variant): nat {
    match v
    case Sm => 0
    case Md => 1
    case Lg => 2
    case Xl => 3
  }

  /** The variants in checking order. */
  const Variants: seq<Variant> := [Sm, Md, Lg, Xl]

  /** The lowercase variant name that the error message embeds. */
  function VariantName(v: Variant): string {
    match v
    case Sm => "sm"
    case Md => "md"
    case Lg => "lg"
    case Xl => "xl"
  }

  function Layout(c: TemplateConfig, v: Variant): seq<GridItem> {
    match v
    case Sm => c.sm
    case Md => c.md
    case Lg => c.lg
    case Xl => c.xl
  }

  /** The column bound of the `sm` layout. */
  const SmColumnLimit: nat := 1

  /** The column bounds of the wider layouts: a parameter of the model. */
  datatype ColumnLimits = ColumnLimits(md: nat, lg: nat, xl: nat)

  function Limit(limits: ColumnLimits, v: Variant): nat {
    match v
    case Sm => SmColumnLimit
    case Md => limits.md
    case Lg => limits.lg
    case Xl => limits.xl
  }

  /** The rejection rule for one grid item: its column lies beyond the bound. */
  predicate OutOfBounds(item: GridItem, limit: nat) {
    item.x > limit
  }

  datatype ValidationError =
    | InvalidName
    | InvalidDisplayName
    | InvalidGridItem(variant: Variant, limit: nat, x: int)

  /** The text of `err.Error()`, which callers compare literally. */
  function Message(e: ValidationError): string {
    match e
    case InvalidName => "invalid template name"
    case InvalidDisplayName => "invalid template display name"
    case InvalidGridItem(v, limit, x) =>
      "invalid grid item, layout variant " + VariantName(v)
      + ", coordinate X must be less than " + Decimal.NatToString(limit)
      + ", current value is " + Decimal.IntToString(x)
  }

  /** The position of the first item beyond the bound, if there is one. */
  function FirstOutOfBounds(items: seq<GridItem>, limit: nat): (r: Option<nat>)
    ensures r.Some? ==> r.value < |items| && OutOfBounds(items[r.value], limit)
    ensures r.Some? ==> forall j :: 0 <= j < r.value ==> !OutOfBounds(items[j], limit)
    ensures r.None? <==> forall j :: 0 <= j < |items| ==> !OutOfBounds(items[j], limit)
    decreases |items|
  {
    if |items| == 0 then None
    else if OutOfBounds(items[0], limit) then Some(0)
    else
      match FirstOutOfBounds(items[1..], limit)
      case None => None
      case Some(i) => Some(i + 1)
  }

  /** The check of one layout: the first item beyond the bound is reported with its X. */
  function CheckLayout(items: seq<GridItem>, v: Variant, limit: nat): Outcome<ValidationError> {
    match FirstOutOfBounds(items, limit)
    case None => Pass
    case Some(i) => Fail(InvalidGridItem(v, limit, items[i].x))
  }

  function CheckVariant(c: TemplateConfig, limits: ColumnLimits, v: Variant): Outcome<ValidationError> {
    CheckLayout(Layout(c, v), v, Limit(limits, v))
  }

  /** The checks of the given variants in order; the first failing layout decides. */
  function CheckVariants(c: TemplateConfig, limits: ColumnLimits, vs: seq<Variant>): (r: Outcome<ValidationError>)
    ensures r.Pass? <==> forall k :: 0 <= k < |vs| ==> CheckVariant(c, limits, vs[k]).Pass?
    ensures r.Fail? ==> exists k :: 0 <= k < |vs| && CheckVariant(c, limits, vs[k]) == r
                             && forall j :: 0 <= j < k ==> CheckVariant(c, limits, vs[j]).Pass?
    decreases |vs|
  {
    if |vs| == 0 then Pass
    else if CheckVariant(c, limits, vs[0]).Fail? then CheckVariant(c, limits, vs[0])
    else CheckVariants(c, limits, vs[1..])
  }

  /** The validator: name, then display name, then the four layouts. */
  function Validate(t: DashboardTemplate, limits: ColumnLimits): Outcome<ValidationError> {
    if t.base.name == "" then Fail(InvalidName)
    else if t.base.displayName == "" then Fail(InvalidDisplayName)
    else CheckVariants(t.config, limits, Variants)
  }

  /** Every grid item of every layout lies within its variant's bound. */
  ghost predicate WithinBounds(c: TemplateConfig, limits: ColumnLimits) {
    forall v: Variant, i :: 0 <= i < |Layout(c, v)| ==> !OutOfBounds(Layout(c, v)[i], Limit(limits, v))
  }

  /** Variants lists each variant once, at the position of its rank. */
  lemma RankOfVariants()
    ensures forall w: Variant :: Variants[Rank(w)] == w
    ensures forall k :: 0 <= k < |Variants| ==> Rank(Variants[k]) == k
  {
  }

  /** A template passes exactly when both names are set and every item lies within its bound. */
  lemma ValidateAcceptsIff(t: DashboardTemplate, limits: ColumnLimits)
    ensures Validate(t, limits).Pass?
      <==> t.base.name != "" && t.base.displayName != "" && WithinBounds(t.config, limits)
  {
    var c := t.config;
    if t.base.name != "" && t.base.displayName != "" {
      if WithinBounds(c, limits) {
        forall k | 0 <= k < |Variants| ensures CheckVariant(c, limits, Variants[k]).Pass? {
          var v := Variants[k];
          assert forall i :: 0 <= i < |Layout(c, v)| ==> !OutOfBounds(Layout(c, v)[i], Limit(limits, v));
        }
      } else {
        var v: Variant, i :| 0 <= i < |Layout(c, v)| && OutOfBounds(Layout(c, v)[i], Limit(limits, v));
        assert Variants[Rank(v)] == v;
        assert CheckVariant(c, limits, Variants[Rank(v)]).Fail?;
      }
    }
  }

  /** An empty name is reported first, whatever the rest of the template holds. */
  lemma NameCheckedFirst(t: DashboardTemplate, limits: ColumnLimits)
    requires t.base.name == ""
    ensures Validate(t, limits) == Fail(InvalidName)
    ensures Message(Validate(t, limits).error) == "invalid template name"
  {
  }

  /** With a name, an empty display name is reported, whatever the layouts hold. */
  lemma DisplayNameCheckedSecond(t: DashboardTemplate, limits: ColumnLimits)
    requires t.base.name != "" && t.base.displayName == ""
    ensures Validate(t, limits) == Fail(InvalidDisplayName)
    ensures Message(Validate(t, limits).error) == "invalid template display name"
  {
  }

  /** A failing layout check names its own variant and bound and the X of its first offender. */
  lemma LayoutFailure(items: seq<GridItem>, u: Variant, bound: nat, e: ValidationError)
    requires CheckLayout(items, u, bound) == Fail(e)
    ensures e.InvalidGridItem? && e.variant == u && e.limit == bound
    ensures exists i :: (0 <= i < |items| && items[i].x == e.x && OutOfBounds(items[i], bound)
                         && forall j :: 0 <= j < i ==> !OutOfBounds(items[j], bound))
  {
    var i := FirstOutOfBounds(items, bound).value;
    assert items[i].x == e.x;
  }

  /** A passing layout check means every item of the layout lies within the bound. */
  lemma LayoutSuccess(items: seq<GridItem>, u: Variant, bound: nat)
    requires CheckLayout(items, u, bound).Pass?
    ensures forall j :: 0 <= j < |items| ==> !OutOfBounds(items[j], bound)
  {
    assert FirstOutOfBounds(items, bound).None?;
  }

  /**
    A failing check of the four layouts reports a grid item of some variant: that variant's own
    check fails with the same error, and the checks of all earlier variants pass.
  */
  lemma VariantsFailure(c: TemplateConfig, limits: ColumnLimits, e: ValidationError)
    requires CheckVariants(c, limits, Variants) == Fail(e)
    ensures e.InvalidGridItem?
    ensures CheckVariant(c, limits, e.variant) == Fail(e)
    ensures forall w: Variant :: Rank(w) < Rank(e.variant) ==> CheckVariant(c, limits, w).Pass?
  {
    var k :| 0 <= k < |Variants| && CheckVariant(c, limits, Variants[k]) == Fail(e)
             && forall j :: 0 <= j < k ==> CheckVariant(c, limits, Variants[j]).Pass?;
    var u := Variants[k];
    LayoutFailure(Layout(c, u), u, Limit(limits, u), e);
    RankOfVariants();
    forall w: Variant | Rank(w) < Rank(e.variant) ensures CheckVariant(c, limits, w).Pass? {
      assert CheckVariant(c, limits, Variants[Rank(w)]).Pass?;
    }
  }

  /**
    Conversely, when the check of variant v fails and those of all earlier variants pass, the
    check of the four layouts reports v's error.
  */
  lemma FirstFailingVariantDecides(c: TemplateConfig, limits: ColumnLimits, v: Variant)
    requires CheckVariant(c, limits, v).Fail?
    requires forall w: Variant :: Rank(w) < Rank(v) ==> CheckVariant(c, limits, w).Pass?
    ensures CheckVariants(c, limits, Variants) == CheckVariant(c, limits, v)
  {
    RankOfVariants();
    var r := CheckVariants(c, limits, Variants);
    assert !CheckVariant(c, limits, Variants[Rank(v)]).Pass?;
    VariantsFailure(c, limits, r.error);
    var u := r.error.variant;
    assert Rank(u) == Rank(v);
  }

  /**
    A reported grid item is the first offender: it lies beyond its variant's bound, every item
    before it in the same layout lies within, and so does every item of the earlier variants.
  */
  lemma GridItemErrorIsFirstOffender(t: DashboardTemplate, limits: ColumnLimits, v: Variant, limit: nat, x: int)
    requires Validate(t, limits) == Fail(InvalidGridItem(v, limit, x))
    ensures t.base.name != "" && t.base.displayName != ""
    ensures limit == Limit(limits, v)
    ensures exists i :: (0 <= i < |Layout(t.config, v)| && Layout(t.config, v)[i].x == x
                         && OutOfBounds(Layout(t.config, v)[i], limit)
                         && forall j :: 0 <= j < i ==> !OutOfBounds(Layout(t.config, v)[j], limit))
    ensures forall w: Variant, j :: (Rank(w) < Rank(v) && 0 <= j < |Layout(t.config, w)|
                                     ==> !OutOfBounds(Layout(t.config, w)[j], Limit(limits, w)))
  {
    var c := t.config;
    var e := InvalidGridItem(v, limit, x);
    VariantsFailure(c, limits, e);
    LayoutFailure(Layout(c, v), v, Limit(limits, v), e);
    forall w: Variant | Rank(w) < Rank(v)
      ensures forall j :: 0 <= j < |Layout(c, w)| ==> !OutOfBounds(Layout(c, w)[j], Limit(limits, w))
    {
      LayoutSuccess(Layout(c, w), w, Limit(limits, w));
    }
  }

  /**
    Conversely, when the names are set and item i of variant v is the first offender in that
    sense, that item is the one reported.
  */
  lemma FirstOffenderIsReported(t: DashboardTemplate, limits: ColumnLimits, v: Variant, i: nat)
    requires t.base.name != "" && t.base.displayName != ""
    requires i < |Layout(t.config, v)| && OutOfBounds(Layout(t.config, v)[i], Limit(limits, v))
    requires forall j :: 0 <= j < i ==> !OutOfBounds(Layout(t.config, v)[j], Limit(limits, v))
    requires forall w: Variant, j :: (Rank(w) < Rank(v) && 0 <= j < |Layout(t.config, w)|
                                      ==> !OutOfBounds(Layout(t.config, w)[j], Limit(limits, w)))
    ensures Validate(t, limits) == Fail(InvalidGridItem(v, Limit(limits, v), Layout(t.config, v)[i].x))
  {
    var c := t.config;
    assert FirstOutOfBounds(Layout(c, v), Limit(limits, v)) == Some(i);
    forall w: Variant | Rank(w) < Rank(v) ensures CheckVariant(c, limits, w).Pass? {
      assert FirstOutOfBounds(Layout(c, w), Limit(limits, w)).None?;
    }
    FirstFailingVariantDecides(c, limits, v);
  }

  /** The error of the test case with an `sm` item at X = 2: sm has bound 1 and is checked first. */
  lemma SmOffenderMessage(t: DashboardTemplate, limits: ColumnLimits, i: nat)
    requires t.base.name != "" && t.base.displayName != ""
    requires i < |t.config.sm| && t.config.sm[i].x == 2
    requires forall j :: 0 <= j < i ==> t.config.sm[j].x <= 1
    ensures Validate(t, limits) == Fail(InvalidGridItem(Sm, 1, 2))
    ensures Message(Validate(t, limits).error)
         == "invalid grid item, layout variant sm, coordinate X must be less than 1, current value is 2"
  {
    FirstOffenderIsReported(t, limits, Sm, i);
    SmOffenderText();
  }

  /** The text of that error, spelled out. */
  lemma SmOffenderText()
    ensures Message(InvalidGridItem(Sm, 1, 2))
         == "invalid grid item, layout variant sm, coordinate X must be less than 1, current value is 2"
  {
    assert Decimal.NatToString(1) == "1" && Decimal.IntToString(2) == "2";
    assert Message(InvalidGridItem(Sm, 1, 2)) == "invalid grid item, layout variant " + "sm"
      + ", coordinate X must be less than " + "1" + ", current value is " + "2";
    SmOffenderPieces();
  }

  /** The pieces of that message join into the expected text (spelled out in three steps). */
  lemma SmOffenderPieces()
    ensures "invalid grid item, layout variant " + "sm" + ", coordinate X must be less than " + "1"
            + ", current value is " + "2"
         == "invalid grid item, layout variant sm, coordinate X must be less than 1, current value is 2"
  {
    SmOffenderHead();
    SmOffenderMiddle();
    assert "invalid grid item, layout variant sm, coordinate X must be less than 1, current value is 2"
        == "invalid grid item, layout variant sm, coordinate X must be less than 1, current value is " + "2";
  }

  lemma SmOffenderHead()
    ensures "invalid grid item, layout variant sm, coordinate X must be less than "
         == "invalid grid item, layout variant " + "sm" + ", coordinate X must be less than "
  {
    assert "invalid grid item, layout variant sm" == "invalid grid item, layout variant " + "sm";
  }

  lemma SmOffenderMiddle()
    ensures "invalid grid item, layout variant sm, coordinate X must be less than 1, current value is "
         == "invalid grid item, layout variant sm, coordinate X must be less than " + "1" + ", current value is "
  {
    assert "invalid grid item, layout variant sm, coordinate X must be less than 1"
        == "invalid grid item, layout variant sm, coordinate X must be less than " + "1";
  }

  /** Two digit strings each followed by a text that starts with a non-digit split apart alike. */
  lemma NumeralBoundary(a: string, x: string, b: string, y: string)
    requires forall k :: 0 <= k < |a| ==> Decimal.IsDigit(a[k])
    requires forall k :: 0 <= k < |b| ==> Decimal.IsDigit(b[k])
    requires |x| > 0 && !Decimal.IsDigit(x[0]) && |y| > 0 && !Decimal.IsDigit(y[0])
    requires a + x == b + y
    ensures a == b && x == y
  {
    assert a == (a + x)[..|a|] == (b + y)[..|b|] == b;
    assert x == (a + x)[|a|..] == (b + y)[|b|..] == y;
  }

  /**
    A text made of fixed parts p, q and r around a name of known length, a numeral and a tail
    can be taken apart again, provided r starts with a non-digit.
  */
  lemma SplitAroundNumeral(p: string, q: string, r: string,
                           v1: string, n1: string, i1: string, v2: string, n2: string, i2: string)
    requires |v1| == |v2| && |r| > 0 && !Decimal.IsDigit(r[0])
    requires Decimal.IsNumeral(n1) && Decimal.IsNumeral(n2)
    requires p + v1 + q + n1 + r + i1 == p + v2 + q + n2 + r + i2
    ensures v1 == v2 && n1 == n2 && i1 == i2
  {
    var m1 := p + v1 + q + n1 + r + i1;
    var m2 := p + v2 + q + n2 + r + i2;
    assert m1 == p + (v1 + (q + (n1 + (r + i1))));
    assert m2 == p + (v2 + (q + (n2 + (r + i2))));
    var t1, t2 := v1 + (q + (n1 + (r + i1))), v2 + (q + (n2 + (r + i2)));
    assert t1 == m1[|p|..] == m2[|p|..] == t2;
    assert v1 == t1[..|v1|] == t2[..|v2|] == v2;
    var u1, u2 := q + (n1 + (r + i1)), q + (n2 + (r + i2));
    assert u1 == t1[|v1|..] == t2[|v2|..] == u2;
    var w1, w2 := n1 + (r + i1), n2 + (r + i2);
    assert w1 == u1[|q|..] == u2[|q|..] == w2;
    NumeralBoundary(n1, r + i1, n2, r + i2);
    assert i1 == (r + i1)[|r|..] == (r + i2)[|r|..] == i2;
  }

  /** Callers tell errors apart by their text alone: different errors have different messages. */
  lemma MessageInjective(e1: ValidationError, e2: ValidationError)
    requires Message(e1) == Message(e2)
    ensures e1 == e2
  {
    if e1.InvalidGridItem? && e2.InvalidGridItem? {
      var n1, n2 := Decimal.NatToString(e1.limit), Decimal.NatToString(e2.limit);
      var i1, i2 := Decimal.IntToString(e1.x), Decimal.IntToString(e2.x);
      SplitAroundNumeral("invalid grid item, layout variant ", ", coordinate X must be less than ",
                         ", current value is ", VariantName(e1.variant), n1, i1, VariantName(e2.variant), n2, i2);
      Decimal.NatToStringInjective(e1.limit, e2.limit);
      Decimal.IntToStringInjective(e1.x, e2.x);
    }
  }
}

/**
  The catalog manifest embedded in the model's system instruction: one line
  per product, whose feature label is picked by a priority chain of
  substring tests on the product name.
 */
module Manifest {
  import opened Text
  import opened Catalog

  const LeatherKeyword := "가죽"
  const ReflectiveKeyword := "반사"
  const AirKeyword := "에어"
  const TacticalKeyword := "택티컬"

  const LeatherLabel := "고급스러운 가죽 소재"
  const ReflectiveLabel := "야간 산책용 반사 기능"
  const AirLabel := "가볍고 통풍 잘됨"
  const TacticalLabel := "견고하고 튼튼함"
  const DefaultLabel := "일반적인 소재"

  /** The feature label of a product name: the first keyword in priority order wins. */
  function FeatureLabel(name: string): string
  {
    if Includes(name, LeatherKeyword) then LeatherLabel
    else if Includes(name, ReflectiveKeyword) then ReflectiveLabel
    else if Includes(name, AirKeyword) then AirLabel
    else if Includes(name, TacticalKeyword) then TacticalLabel
    else DefaultLabel
  }

  /**
    Each label is chosen exactly when its keyword occurs in the name and no
    keyword of higher priority does; the default exactly when none occurs.
   */
  lemma FeatureLabelPriority(name: string)
    ensures FeatureLabel(name) == LeatherLabel <==> Occurs(name, LeatherKeyword)
    ensures FeatureLabel(name) == ReflectiveLabel <==>
              !Occurs(name, LeatherKeyword) && Occurs(name, ReflectiveKeyword)
    ensures FeatureLabel(name) == AirLabel <==>
              !Occurs(name, LeatherKeyword) && !Occurs(name, ReflectiveKeyword) && Occurs(name, AirKeyword)
    ensures FeatureLabel(name) == TacticalLabel <==>
              !Occurs(name, LeatherKeyword) && !Occurs(name, ReflectiveKeyword) && !Occurs(name, AirKeyword)
              && Occurs(name, TacticalKeyword)
    ensures FeatureLabel(name) == DefaultLabel <==>
              !Occurs(name, LeatherKeyword) && !Occurs(name, ReflectiveKeyword) && !Occurs(name, AirKeyword)
              && !Occurs(name, TacticalKeyword)
  {
  }

  /** One manifest line: `ID: …, 이름: …, 가격: …, 특징: [label], Link: …`. */
  function Line(p: Product): string
  {
    "ID: " + IntToString(p.id) + ", 이름: " + p.name + ", 가격: " + p.price
    + ", 특징: [" + FeatureLabel(p.name) + "], Link: " + p.link
  }

  /** The products mapped to their lines, in catalog order. */
  function Lines(catalog: seq<Product>): (lines: seq<string>)
    ensures |lines| == |catalog|
    ensures forall i :: 0 <= i < |catalog| ==> lines[i] == Line(catalog[i])
  {
    seq(|catalog|, i requires 0 <= i < |catalog| => Line(catalog[i]))
  }

  /** `products.map(…).join('\n')`. */
  function ManifestText(catalog: seq<Product>): string
  {
    Join(Lines(catalog), '\n')
  }

  /** None of the product's texts breaks a line. */
  predicate SingleLine(p: Product)
  {
    '\n' !in p.name && '\n' !in p.price && '\n' !in p.link
  }

  lemma LineHasNoNewline(p: Product)
    requires SingleLine(p)
    ensures '\n' !in Line(p)
  {
    var id := IntToString(p.id);
    assert forall k :: 0 <= k < |id| ==> id[k] != '\n';
    var featureLabel := FeatureLabel(p.name);
    assert '\n' !in featureLabel;
  }

  /**
    Reading the manifest back line by line gives exactly one line per
    product, in catalog order; an empty catalog gives the empty text.
   */
  lemma ManifestHasOneLinePerProduct(catalog: seq<Product>)
    requires forall p :: p in catalog ==> SingleLine(p)
    ensures |catalog| == 0 ==> ManifestText(catalog) == ""
    ensures |catalog| > 0 ==>
              var lines := Split(ManifestText(catalog), '\n');
              |lines| == |catalog| && forall i :: 0 <= i < |catalog| ==> lines[i] == Line(catalog[i])
  {
    if |catalog| > 0 {
      var lines := Lines(catalog);
      forall k | 0 <= k < |lines|
        ensures '\n' !in lines[k]
      {
        LineHasNoNewline(catalog[k]);
      }
      SplitJoin(lines, '\n');
    }
  }

  /** A keyword whose first character is absent from `s` does not occur in it. */
  lemma AbsentKeyword(s: string, keyword: string)
    requires |keyword| > 0 && keyword[0] !in s
    ensures !Occurs(s, keyword)
  {
  }

  lemma LeatherHarnessLabel()
    ensures FeatureLabel(LeatherHarness.name) == LeatherLabel
  {
    assert OccursAt(LeatherHarness.name, LeatherKeyword, 5);
  }

  lemma ReflectiveHarnessLabel()
    ensures FeatureLabel(ReflectiveHarness.name) == ReflectiveLabel
  {
    AbsentKeyword(ReflectiveHarness.name, LeatherKeyword);
    assert OccursAt(ReflectiveHarness.name, ReflectiveKeyword, 0);
  }

  lemma AirHarnessLabel()
    ensures FeatureLabel(AirHarness.name) == AirLabel
  {
    AbsentKeyword(AirHarness.name, LeatherKeyword);
    AbsentKeyword(AirHarness.name, ReflectiveKeyword);
    assert OccursAt(AirHarness.name, AirKeyword, 8);
  }

  lemma TacticalHarnessLabel()
    ensures FeatureLabel(TacticalHarness.name) == TacticalLabel
  {
    AbsentKeyword(TacticalHarness.name, LeatherKeyword);
    AbsentKeyword(TacticalHarness.name, ReflectiveKeyword);
    AbsentKeyword(TacticalHarness.name, AirKeyword);
    assert OccursAt(TacticalHarness.name, TacticalKeyword, 9);
  }

  lemma EngravedHarnessLabel()
    ensures FeatureLabel(EngravedHarness.name) == DefaultLabel
  {
    AbsentKeyword(EngravedHarness.name, LeatherKeyword);
    AbsentKeyword(EngravedHarness.name, ReflectiveKeyword);
    AbsentKeyword(EngravedHarness.name, AirKeyword);
    AbsentKeyword(EngravedHarness.name, TacticalKeyword);
  }

  /** The labels the shipped catalog gets, product by product. */
  lemma ProductsFeatureLabels()
    ensures FeatureLabel(LeatherHarness.name) == LeatherLabel
    ensures FeatureLabel(ReflectiveHarness.name) == ReflectiveLabel
    ensures FeatureLabel(AirHarness.name) == AirLabel
    ensures FeatureLabel(TacticalHarness.name) == TacticalLabel
    ensures FeatureLabel(EngravedHarness.name) == DefaultLabel
  {
    LeatherHarnessLabel();
    ReflectiveHarnessLabel();
    AirHarnessLabel();
    TacticalHarnessLabel();
    EngravedHarnessLabel();
  }

  lemma ProductsAreSingleLine()
    ensures forall p :: p in Products ==> SingleLine(p)
  {
    assert SingleLine(LeatherHarness);
    assert SingleLine(ReflectiveHarness);
    assert SingleLine(AirHarness);
    assert SingleLine(TacticalHarness);
    assert SingleLine(EngravedHarness);
  }

  /** The shipped manifest has five lines, the i-th describing product i + 1. */
  lemma ProductsManifest()
    ensures var lines := Split(ManifestText(Products), '\n');
            |lines| == |Products| && forall i :: 0 <= i < |Products| ==> lines[i] == Line(Products[i])
  {
    ProductsAreSingleLine();
    ManifestHasOneLinePerProduct(Products);
  }
}

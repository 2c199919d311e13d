/**
 * The shape shared by both variants' generated style sheets: a list of rules, each a
 * selector and a list of `property: value;` declarations, laid out as the template
 * literal lays them out (a leading newline, selectors indented by 12 spaces,
 * declarations by 16, and 8 trailing spaces before the closing backtick).
 */
module Stylesheet {
  import opened Wrappers
  import opened Text

  datatype Declaration = Declaration(property: string, value: string)
  datatype Rule = Rule(selector: string, declarations: seq<Declaration>)

  function Spaces(n: nat): (s: string)
    ensures |s| == n && forall i :: 0 <= i < n ==> s[i] == ' '
  {
    if n == 0 then "" else Spaces(n - 1) + " "
  }

  function RenderDeclaration(d: Declaration): string
  {
    Spaces(16) + d.property + ": " + d.value + ";\n"
  }

  function RenderDeclarations(ds: seq<Declaration>): string
  {
    if |ds| == 0 then "" else RenderDeclaration(ds[0]) + RenderDeclarations(ds[1..])
  }

  function RenderRule(r: Rule): string
  {
    Spaces(12) + r.selector + " {\n" + RenderDeclarations(r.declarations) + Spaces(12) + "}\n"
  }

  function RenderRules(rules: seq<Rule>): string
  {
    if |rules| == 0 then "" else RenderRule(rules[0]) + RenderRules(rules[1..])
  }

  /** The text of the whole `<style>` element. */
  function Render(rules: seq<Rule>): string
  {
    "\n" + RenderRules(rules) + Spaces(8)
  }

  /**
   * The value of the first declaration of `property` in the first rule for `selector`.
   * This is the first match, not the cascade's winner (the last one): it says what the
   * sheet text declares in that place.
   */
  function FirstDeclaredValue(rules: seq<Rule>, selector: string, property: string): (r: Option<string>)
    ensures r.Some? ==> exists i, j :: 0 <= i < |rules| && 0 <= j < |rules[i].declarations|
                          && rules[i].selector == selector
                          && rules[i].declarations[j] == Declaration(property, r.value)
  {
    if |rules| == 0 then None
    else if rules[0].selector == selector then
      ValueIn(rules[0].declarations, property)
    else
      var r := FirstDeclaredValue(rules[1..], selector, property);
      assert r.Some? ==> exists i, j :: 0 <= i < |rules[1..]| && 0 <= j < |rules[1..][i].declarations|
                          && rules[1..][i].selector == selector
                          && rules[1..][i].declarations[j] == Declaration(property, r.value);
      r
  }

  function ValueIn(ds: seq<Declaration>, property: string): (r: Option<string>)
    ensures r.Some? ==> exists j :: 0 <= j < |ds| && ds[j] == Declaration(property, r.value)
  {
    if |ds| == 0 then None
    else if ds[0].property == property then Some(ds[0].value)
    else
      var r := ValueIn(ds[1..], property);
      assert r.Some? ==> ds[1..][0..] == ds[1..];
      r
  }

  lemma {:induction false} DeclarationRenderedInList(ds: seq<Declaration>, j: nat) returns (k: nat)
    requires j < |ds|
    ensures OccursAt(RenderDeclaration(ds[j]), RenderDeclarations(ds), k)
  {
    if j == 0 {
      k := 0;
    } else {
      var k' := DeclarationRenderedInList(ds[1..], j - 1);
      OccursInConcat(RenderDeclaration(ds[j]), RenderDeclarations(ds[1..]), k', RenderDeclaration(ds[0]), "");
      assert RenderDeclaration(ds[0]) + RenderDeclarations(ds[1..]) + "" == RenderDeclarations(ds);
      k := |RenderDeclaration(ds[0])| + k';
    }
  }

  lemma DeclarationRenderedInRule(r: Rule, j: nat) returns (k: nat)
    requires j < |r.declarations|
    ensures OccursAt(RenderDeclaration(r.declarations[j]), RenderRule(r), k)
  {
    var kd := DeclarationRenderedInList(r.declarations, j);
    var head := Spaces(12) + r.selector + " {\n";
    OccursInConcat(RenderDeclaration(r.declarations[j]), RenderDeclarations(r.declarations), kd, head, Spaces(12) + "}\n");
    assert head + RenderDeclarations(r.declarations) + (Spaces(12) + "}\n") == RenderRule(r);
    k := |head| + kd;
  }

  /** Every declaration of every rule appears, as a line of its own, in the rendered sheet. */
  lemma DeclarationRendered(rules: seq<Rule>, i: nat, j: nat) returns (k: nat)
    requires i < |rules| && j < |rules[i].declarations|
    ensures OccursAt(RenderDeclaration(rules[i].declarations[j]), Render(rules), k)
  {
    var kd := DeclarationRenderedInRule(rules[i], j);
    var kr := RuleRendered(rules, i);
    OccursTransitive(RenderDeclaration(rules[i].declarations[j]), RenderRule(rules[i]), Render(rules), kd, kr);
    k := kr + kd;
  }

  lemma {:induction false} RuleRenderedInList(rules: seq<Rule>, i: nat) returns (k: nat)
    requires i < |rules|
    ensures OccursAt(RenderRule(rules[i]), RenderRules(rules), k)
  {
    if i == 0 {
      k := 0;
    } else {
      var k' := RuleRenderedInList(rules[1..], i - 1);
      OccursInConcat(RenderRule(rules[i]), RenderRules(rules[1..]), k', RenderRule(rules[0]), "");
      assert RenderRule(rules[0]) + RenderRules(rules[1..]) + "" == RenderRules(rules);
      k := |RenderRule(rules[0])| + k';
    }
  }

  /** Every declaration of every rule appears, as its own line, in the rendered sheet. */
  lemma AllDeclarationsRendered(rules: seq<Rule>)
    ensures forall i, j :: 0 <= i < |rules| && 0 <= j < |rules[i].declarations| ==>
      Occurs(RenderDeclaration(rules[i].declarations[j]), Render(rules))
  {
    forall i, j | 0 <= i < |rules| && 0 <= j < |rules[i].declarations|
      ensures Occurs(RenderDeclaration(rules[i].declarations[j]), Render(rules))
    {
      var k := DeclarationRendered(rules, i, j);
    }
  }

  /** Every rule appears, selector line, declarations and closing brace together, in the rendered sheet. */
  lemma RuleRendered(rules: seq<Rule>, i: nat) returns (k: nat)
    requires i < |rules|
    ensures OccursAt(RenderRule(rules[i]), Render(rules), k)
  {
    var k' := RuleRenderedInList(rules, i);
    OccursInConcat(RenderRule(rules[i]), RenderRules(rules), k', "\n", Spaces(8));
    k := 1 + k';
  }
  /** The first declaration of a property in a list decides its value. */
  lemma {:induction false} ValueInAt(ds: seq<Declaration>, j: nat)
    requires j < |ds|
    requires forall j' :: 0 <= j' < j ==> ds[j'].property != ds[j].property
    ensures ValueIn(ds, ds[j].property) == Some(ds[j].value)
  {
    if j > 0 {
      ValueInAt(ds[1..], j - 1);
    }
  }

  /**
   * The declared value of a property for a selector is the one in the first rule with
   * that selector, at that rule's first declaration of the property.
   */
  lemma {:induction false} FirstDeclaredValueAt(rules: seq<Rule>, i: nat, j: nat)
    requires i < |rules| && j < |rules[i].declarations|
    requires forall i' :: 0 <= i' < i ==> rules[i'].selector != rules[i].selector
    requires forall j' :: 0 <= j' < j ==> rules[i].declarations[j'].property != rules[i].declarations[j].property
    ensures FirstDeclaredValue(rules, rules[i].selector, rules[i].declarations[j].property)
            == Some(rules[i].declarations[j].value)
  {
    if i == 0 {
      ValueInAt(rules[0].declarations, j);
    } else {
      FirstDeclaredValueAt(rules[1..], i - 1, j);
    }
  }
}

/** The option records src/index.js draws for each layer: the blend-mode pair and the four
    fluid parameters, the one live validation rule, and the draw-until-valid loop. */
module SketchOptions {
  import opened Js
  import opened FxRand

  /** `minDt`: the smallest time step for each pass blend mode 0 .. 5. */
  const MinDt: seq<real> := [0.25, 0.25, 0.4, 0.1, 0.3, 0.1]

  /** The blend-mode pairs the validator rejects, as `pass + '-' + view`. */
  const InvalidBlends: seq<string> := ["4-4"]

  datatype Generated = Generated(
    blendModePass: int, blendModeView: int, dt: real, K: real, nu: real, kappa: real)

  /** The record as an options object. */
  function AsOptions(g: Generated): (o: Options)
    ensures o.Keys == {"blendModePass", "blendModeView", "dt", "K", "nu", "kappa"}
    ensures o["blendModePass"] == g.blendModePass as real && o["blendModeView"] == g.blendModeView as real
    ensures o["dt"] == g.dt && o["K"] == g.K && o["nu"] == g.nu && o["kappa"] == g.kappa
  {
    map["blendModePass" := g.blendModePass as real, "blendModeView" := g.blendModeView as real,
        "dt" := g.dt, "K" := g.K, "nu" := g.nu, "kappa" := g.kappa]
  }

  function Digit(d: nat): char
    requires d < 10
  {
    "0123456789"[d]
  }

  /** The decimal spelling of a natural number, as string concatenation produces it. */
  function NatToString(n: nat): (s: string)
    ensures |s| >= 1
    ensures |s| == 1 <==> n < 10
    ensures n < 10 ==> s == [Digit(n)]
  {
    if n < 10 then [Digit(n)] else NatToString(n / 10) + [Digit(n % 10)]
  }

  /** The decimal spelling of an integer: a minus sign before a negative one's digits. */
  function IntToString(n: int): (s: string)
    ensures |s| >= 1
    ensures |s| == 1 ==> 0 <= n < 10 && s == [Digit(n)]
  {
    if n < 0 then "-" + NatToString(-n) else NatToString(n)
  }

  /** `blendModePass + '-' + blendModeView` */
  function BlendKey(pass: int, view: int): string {
    IntToString(pass) + "-" + IntToString(view)
  }

  /** `validateOptions(options, i)`: only the blend pair 4-4 is refused; the time step and the
      layer index play no part. */
  function ValidateOptions(g: Generated, i: int): (ok: bool)
    ensures ok <==> !(g.blendModePass == 4 && g.blendModeView == 4)
  {
    var key := BlendKey(g.blendModePass, g.blendModeView);
    if key in InvalidBlends then
      KeyOfFourFour(g.blendModePass, g.blendModeView);
      false
    else
      assert BlendKey(4, 4) == "4-4";
      true
  }

  /** The only pair whose key reads `4-4` is (4, 4). */
  lemma KeyOfFourFour(pass: int, view: int)
    requires BlendKey(pass, view) == "4-4"
    ensures pass == 4 && view == 4
  {
    var a, b := IntToString(pass), IntToString(view);
    var key := a + "-" + b;
    assert key == "4-4";
    assert |a| == 1 && |b| == 1;
    assert a[0] == key[0] == '4';
    assert b[0] == key[2] == '4';
    DigitFour(pass);
    DigitFour(view);
  }

  /** The digit '4' spells only 4. */
  lemma DigitFour(d: int)
    requires 0 <= d < 10 && Digit(d) == '4'
    ensures d == 4
  {
    var digits := "0123456789";
    assert forall e :: 0 <= e < 10 && e != 4 ==> digits[e] != '4';
  }

  /** The ranges the draws of one attempt land in, for layer `i` and composition `comp`. */
  predicate InRange(g: Generated, i: int, comp: string) {
    0 <= g.blendModePass <= (if i > 0 then 4 else 5) &&
    (comp == "cells" ==> g.blendModeView == 2) &&
    (comp != "cells" ==> 2 <= g.blendModeView <= (if g.blendModePass == 3 then 3 else 5)) &&
    MinDt[g.blendModePass] <= g.dt <= 1.0 &&
    0.2 <= g.K <= 0.7 && 0.4 <= g.nu <= 0.6 && 0.1 <= g.kappa <= 0.9
  }

  /** Draws of an attempt: five for `cells`, whose view mode is fixed, six otherwise. */
  function AttemptDraws(comp: string): nat {
    if comp == "cells" then 5 else 6
  }

  /** One pass of the `do` body, reading samples `k, k+1, ...` of the stream in the order the
      source draws them. */
  function Attempt(i: int, comp: string, s: Stream, k: nat): (g: Generated)
    requires Uniform(s)
    ensures InRange(g, i, comp)
  {
    var pass := Int(0, if i > 0 then 4 else 5, s(k));
    var view := if comp == "cells" then 2 else Int(2, if pass == 3 then 3 else 5, s(k + 1));
    var j := if comp == "cells" then k + 1 else k + 2;
    Generated(pass, view, Num(MinDt[pass], 1.0, s(j)), Num(0.2, 0.7, s(j + 1)),
              Num(0.4, 0.6, s(j + 2)), Num(0.1, 0.9, s(j + 3)))
  }

  /** The `n`-th attempt (from 0) of the loop that starts at sample `k`: every earlier attempt
      took `AttemptDraws(comp)` samples. */
  function NthAttempt(i: int, comp: string, s: Stream, k: nat, n: nat): (g: Generated)
    requires Uniform(s)
    ensures InRange(g, i, comp)
  {
    Attempt(i, comp, s, k + n * AttemptDraws(comp))
  }

  /** Attempts `0 .. n-1` from sample `k` on were all refused by the validator. */
  predicate AllRefused(i: int, comp: string, s: Stream, k: nat, n: nat)
    requires Uniform(s)
  {
    forall m: nat :: m < n ==> !ValidateOptions(NthAttempt(i, comp, s, k, m), i)
  }

  /** `generateOptions(i)`: draw until the validator accepts, from sample `k` on, at most
      `attempts` times. The result is the first accepted attempt, with every earlier one
      refused, and `next` is the sample after it; `None` means all `attempts` attempts were
      refused. For `cells` the first attempt is always accepted. */
  method GenerateOptions(i: int, comp: string, s: Stream, k: nat, attempts: nat)
    returns (r: Option<Generated>, next: nat)
    requires Uniform(s)
    ensures r.Some? ==> ValidateOptions(r.value, i) && InRange(r.value, i, comp)
    ensures r.Some? ==> (exists n: nat :: n < attempts && AllRefused(i, comp, s, k, n) &&
                          r.value == NthAttempt(i, comp, s, k, n) &&
                          next == k + (n + 1) * AttemptDraws(comp))
    ensures r.None? ==> AllRefused(i, comp, s, k, attempts) && next == k + attempts * AttemptDraws(comp)
    ensures r.None? ==> attempts == 0 || comp != "cells"
    ensures comp == "cells" && attempts > 0 ==> r == Some(Attempt(i, comp, s, k)) && next == k + 5
    ensures next >= k
  {
    r := None;
    next := k;
    var n: nat := 0;
    while n < attempts
      invariant n <= attempts && next == k + n * AttemptDraws(comp)
      invariant AllRefused(i, comp, s, k, n)
      invariant comp == "cells" ==> n == 0
      decreases attempts - n
    {
      var g := Attempt(i, comp, s, next);
      assert g == NthAttempt(i, comp, s, k, n);
      next := next + AttemptDraws(comp);
      if ValidateOptions(g, i) {
        r := Some(g);
        return;
      }
      n := n + 1;
    }
  }

  /** Every option record a layer receives avoids the refused blend pair. */
  lemma GeneratedNeverFourFour(g: Generated, i: int)
    requires ValidateOptions(g, i)
    ensures BlendKey(g.blendModePass, g.blendModeView) != "4-4"
  {
    if BlendKey(g.blendModePass, g.blendModeView) == "4-4" {
      KeyOfFourFour(g.blendModePass, g.blendModeView);
    }
  }
}

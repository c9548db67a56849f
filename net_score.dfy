/** The net score: one fixed formula over five metric scores, and the sum
    of their latencies rounded to three decimals. */
module NetScoring {
  import opened Results

  /** `parseFloat(x.toFixed(3))` on exact reals: the nearest thousandth,
      halves rounded away from zero. */
  function Round3(x: real): real
  {
    if x >= 0.0 then ((x * 1000.0 + 0.5).Floor as real) / 1000.0
    else -((((-x) * 1000.0 + 0.5).Floor as real) / 1000.0)
  }

  /** Rounding moves a number by at most half a thousandth. */
  lemma Round3Close(x: real)
    ensures -0.0005 <= Round3(x) - x <= 0.0005
  {
  }

  /** A number of whole thousandths is left as it is. */
  lemma Round3Thousandths(k: int)
    ensures Round3(k as real / 1000.0) == k as real / 1000.0
  {
    var x := k as real / 1000.0;
    if k >= 0 {
      assert x * 1000.0 + 0.5 == k as real + 0.5;
      assert (x * 1000.0 + 0.5).Floor == k;
    } else {
      assert (-x) * 1000.0 + 0.5 == (-k) as real + 0.5;
      assert ((-x) * 1000.0 + 0.5).Floor == -k;
    }
  }

  /** Rounding twice is rounding once. */
  lemma Round3Idempotent(x: real)
    ensures Round3(Round3(x)) == Round3(x)
  {
    if x >= 0.0 {
      Round3Thousandths((x * 1000.0 + 0.5).Floor);
    } else {
      var f := ((-x) * 1000.0 + 0.5).Floor;
      assert Round3(x) == (-f) as real / 1000.0;
      Round3Thousandths(-f);
    }
  }

  /** Rounding keeps order. */
  lemma Round3Monotone(x: real, y: real)
    requires x <= y
    ensures Round3(x) <= Round3(y)
  {
    if 0.0 <= x {
      assert (x * 1000.0 + 0.5).Floor <= (y * 1000.0 + 0.5).Floor;
    } else if y < 0.0 {
      assert ((-y) * 1000.0 + 0.5).Floor <= ((-x) * 1000.0 + 0.5).Floor;
    }
  }

  /** Rounding keeps a number inside [0, 1]. */
  lemma Round3Unit(x: real)
    requires 0.0 <= x <= 1.0
    ensures 0.0 <= Round3(x) <= 1.0
  {
    Round3Monotone(0.0, x);
    Round3Monotone(x, 1.0);
    Round3Thousandths(0);
    Round3Thousandths(1000);
  }

  /** `xs.reduce((acc, value) => acc + value, 0)`. */
  function Sum(xs: seq<real>): real
  {
    if |xs| == 0 then 0.0 else Sum(xs[..|xs| - 1]) + xs[|xs| - 1]
  }

  /** A NetScore object once constructed: the `Metric` URL and score and
      the latency. */
  datatype NetScoreValue = NetScoreValue(url: string, score: real, latency: real)

  /** The constructor. It throws unless all three arrays have five
      elements; the weights are checked for length only. */
  function NetScore(url: string, scores: seq<real>, weights: seq<real>, latencies: seq<real>)
    : (r: Result<NetScoreValue>)
    ensures r.Ok? <==> |scores| == 5 && |weights| == 5 && |latencies| == 5
    ensures r.Err? ==> r.error == ArityMismatch
    ensures r.Ok? ==> r.value.url == url && r.value.latency == Round3(Sum(latencies))
  {
    if |scores| != 5 || |weights| != 5 || |latencies| != 5 then Err(ArityMismatch)
    else
      var license := scores[0];
      var RM := scores[1];
      var BF := scores[3];
      var C := scores[4];
      var other := scores[2];
      Ok(NetScoreValue(url, license * (0.4 * RM + 0.2 * BF + 0.2 * C + 0.2 * RM) * other,
                       Round3(Sum(latencies))))
  }

  /** `getLatency`. */
  function GetLatency(n: NetScoreValue): real
  {
    n.latency
  }

  /** The latency read back is the rounded sum of the latencies given. */
  lemma GetLatencyIsRoundedSum(url: string, scores: seq<real>, weights: seq<real>, latencies: seq<real>)
    requires NetScore(url, scores, weights, latencies).Ok?
    ensures GetLatency(NetScore(url, scores, weights, latencies).value) == Round3(Sum(latencies))
  {
  }

  /** The score multiplies slot 0 and slot 2 by a mix of slots 1, 3 and 4
      in which slot 1 is counted twice. */
  lemma NetScoreFormula(url: string, s: seq<real>, w: seq<real>, l: seq<real>)
    requires |s| == 5 && |w| == 5 && |l| == 5
    ensures NetScore(url, s, w, l).value.score == s[0] * s[2] * (0.6 * s[1] + 0.2 * s[3] + 0.2 * s[4])
  {
    assert 0.4 * s[1] + 0.2 * s[3] + 0.2 * s[4] + 0.2 * s[1] == 0.6 * s[1] + 0.2 * s[3] + 0.2 * s[4];
  }

  /** Only the number of weights matters, not their values. */
  lemma WeightsIrrelevant(url: string, s: seq<real>, w1: seq<real>, w2: seq<real>, l: seq<real>)
    requires |w1| == |w2|
    ensures NetScore(url, s, w1, l) == NetScore(url, s, w2, l)
  {
  }

  lemma MulNonNegative(a: real, b: real)
    requires 0.0 <= a && 0.0 <= b
    ensures 0.0 <= a * b
  {
  }

  lemma MulUnit(a: real, b: real)
    requires 0.0 <= a <= 1.0 && 0.0 <= b <= 1.0
    ensures 0.0 <= a * b <= 1.0
  {
    MulNonNegative(a, b);
    MulNonNegative(1.0 - a, b);
    assert (1.0 - a) * b == b - a * b;
  }

  /** Scores in [0, 1] give a net score in [0, 1]. */
  lemma NetScoreUnit(url: string, s: seq<real>, w: seq<real>, l: seq<real>)
    requires |s| == 5 && |w| == 5 && |l| == 5
    requires forall i :: 0 <= i < 5 ==> 0.0 <= s[i] <= 1.0
    ensures 0.0 <= NetScore(url, s, w, l).value.score <= 1.0
  {
    NetScoreFormula(url, s, w, l);
    var mix := 0.6 * s[1] + 0.2 * s[3] + 0.2 * s[4];
    MulUnit(s[0], s[2]);
    MulUnit(s[0] * s[2], mix);
  }

  /** Five perfect scores give exactly 1. */
  lemma AllOnes(url: string, w: seq<real>, l: seq<real>)
    requires |w| == 5 && |l| == 5
    ensures NetScore(url, [1.0, 1.0, 1.0, 1.0, 1.0], w, l).value.score == 1.0
  {
  }

  /** A zero in slot 0 or slot 2 zeroes the net score. */
  lemma ZeroSlot(url: string, s: seq<real>, w: seq<real>, l: seq<real>)
    requires |s| == 5 && |w| == 5 && |l| == 5
    requires s[0] == 0.0 || s[2] == 0.0
    ensures NetScore(url, s, w, l).value.score == 0.0
  {
    NetScoreFormula(url, s, w, l);
  }

  lemma {:induction false} SumNonNegative(xs: seq<real>)
    requires forall i :: 0 <= i < |xs| ==> xs[i] >= 0.0
    ensures Sum(xs) >= 0.0
  {
    if |xs| > 0 {
      SumNonNegative(xs[..|xs| - 1]);
    }
  }
}

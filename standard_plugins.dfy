/** `SystemInformationPlugin.format_bytes`, which is the same code in
    src/networkguardian/standard_plugins.py and in src/networkguardian/plugin.py: a byte count is
    divided by 1024 while it exceeds 1024, and the number of divisions picks the unit label.
    Dividing by a power of two is exact in binary floating point, so the model computes over
    `real`. */
module StandardPlugins {
  import opened Exceptions

  /** `power = 2 ** 10` */
  const Power: real := 1024.0

  /** `power_labels` */
  const PowerLabels: map<int, string> := map[0 := "B", 1 := "KB", 2 := "MB", 3 := "GB", 4 := "TB"]

  /** `1024 ** n` */
  function Pow(n: nat): (r: real)
    ensures r >= 1.0
  {
    if n == 0 then 1.0 else Power * Pow(n - 1)
  }

  /** A division by 1024 lowers the integer part of a value above 1024. */
  lemma DivisionShrinks(x: real)
    requires x > Power
    ensures (x / Power).Floor < x.Floor
  {
    assert x / Power < x - 1.0;
  }

  /** The number of times the loop divides `x`. */
  function Steps(x: real): nat
    decreases if x > Power then x.Floor else 0
  {
    if x > Power then
      DivisionShrinks(x);
      1 + Steps(x / Power)
    else 0
  }

  /** The loop divides exactly once per power of 1024 that the input exceeds: for every `k >= 1`,
      at least `k` divisions happen exactly when the input is above `1024 ** k`. */
  lemma {:induction false} StepsCountsPowers(x: real, k: nat)
    requires k >= 1
    ensures Steps(x) >= k <==> x > Pow(k)
    decreases k
  {
    if k > 1 {
      StepsCountsPowers(x / Power, k - 1);
      assert Pow(k) == Power * Pow(k - 1);
      assert x / Power > Pow(k - 1) <==> x > Power * Pow(k - 1);
      assert Pow(k - 1) >= 1.0;
      if x > Pow(k) {
        assert x > Power;
      }
    }
  }

  /** The label lookup fails, with `KeyError(n)`, exactly when the input exceeds `1024 ** 5`. */
  lemma LabelExistsBelowPeta(x: real)
    ensures Steps(x) in PowerLabels <==> x <= Pow(5)
  {
    StepsCountsPowers(x, 5);
  }

  /** The input a scaled value and a division count stand for. */
  function Unscaled(value: real, n: nat): real {
    value * Pow(n)
  }

  /** One pass of the loop keeps the value it stands for. */
  lemma DivideStep(value: real, n: nat)
    ensures Unscaled(value / Power, n + 1) == Unscaled(value, n)
  {
    assert Pow(n + 1) == Power * Pow(n);
  }

  /** The `while byte_count > power` loop: the input divided by 1024 as many times as `Steps`
      counts, with the number of divisions. */
  method Scale(byteCount: real) returns (value: real, n: nat)
    ensures n == Steps(byteCount)
    ensures value * Pow(n) == byteCount && value <= Power
  {
    value := byteCount;
    n := 0;
    while value > Power
      invariant Unscaled(value, n) == byteCount
      invariant n + Steps(value) == Steps(byteCount)
      decreases if value > Power then value.Floor else 0
    {
      DivisionShrinks(value);
      DivideStep(value, n);
      value, n := value / Power, n + 1;
    }
  }

  /** `format_bytes(byte_count)`: the scaled value and its unit label, or `KeyError(n)` when the
      input needs more than the four divisions the labels cover. */
  method FormatBytes(byteCount: real) returns (r: Result<(real, string)>)
    ensures r.Ok? <==> Steps(byteCount) in PowerLabels
    ensures r.Ok? <==> byteCount <= Pow(5)
    ensures r.Ok? ==> r.value == (byteCount / Pow(Steps(byteCount)), PowerLabels[Steps(byteCount)])
    ensures r.Ok? ==> r.value.0 <= Power && r.value.0 * Pow(Steps(byteCount)) == byteCount
    ensures r.Raise? ==> r.error == KeyError(Steps(byteCount))
    ensures byteCount <= Power ==> r == Ok((byteCount, "B"))
  {
    var value, n := Scale(byteCount);
    LabelExistsBelowPeta(byteCount);
    assert value == byteCount / Pow(n);
    if n in PowerLabels {
      r := Ok((value, PowerLabels[n]));
    } else {
      r := Raise(KeyError(n));
    }
  }

  /** The documented example: 4294967296 bytes are 4 GB. */
  lemma FourGigabytes()
    ensures Steps(4294967296.0) == 3
    ensures 4294967296.0 / Pow(3) == 4.0 && PowerLabels[3] == "GB"
  {
    assert Steps(4.0) == 0;
    assert Steps(4096.0) == 1 + Steps(4.0);
    assert Steps(4194304.0) == 1 + Steps(4096.0);
    assert Steps(4294967296.0) == 1 + Steps(4194304.0);
    assert Pow(3) == 1073741824.0 by {
      assert Pow(1) == 1024.0;
      assert Pow(2) == 1048576.0;
    }
  }
}

/** Instance-name generation and the fixed port-publishing policy of the
    container runtime adapter (docker_sdk/docker.go). */
module DockerSdk {

  // ---------------------------------------------------------------------
  // Decimal digits
  // ---------------------------------------------------------------------

  predicate IsDigit(c: char) {
    '0' <= c <= '9'
  }

  predicate AllDigits(s: string) {
    forall i :: 0 <= i < |s| ==> IsDigit(s[i])
  }

  function DigitChar(d: nat): (c: char)
    requires d < 10
    ensures IsDigit(c) && c as int - '0' as int == d
  {
    ('0' as int + d) as char
  }

  function DigitValue(c: char): (d: nat)
    requires IsDigit(c)
    ensures d < 10 && DigitChar(d) == c
  {
    c as int - '0' as int
  }

  function Pow10(k: nat): (p: nat)
    ensures p >= 1
  {
    if k == 0 then 1 else 10 * Pow10(k - 1)
  }

  /** The number a string of decimal digits denotes, most significant digit first. */
  function ValueOf(s: string): nat
    requires AllDigits(s)
  {
    if s == [] then 0 else ValueOf(s[..|s| - 1]) * 10 + DigitValue(s[|s| - 1])
  }

  /** What Go's `%d` verb prints for a non-negative integer: its digits with
      no leading zero, and "0" for zero. */
  function Decimal(n: nat): (s: string)
    ensures 1 <= |s| && AllDigits(s)
    ensures |s| > 1 ==> s[0] != '0'
    decreases n
  {
    if n < 10 then [DigitChar(n)] else Decimal(n / 10) + [DigitChar(n % 10)]
  }

  function Zeros(k: nat): (z: string)
    ensures |z| == k && forall i :: 0 <= i < k ==> z[i] == '0'
  {
    if k == 0 then [] else Zeros(k - 1) + ['0']
  }

  /** Left-pads `s` with '0' up to `width` characters, as the `0` flag of a
      Go format verb does; a string already that wide is left alone. */
  function PadLeft(s: string, width: nat): string {
    if |s| >= width then s else Zeros(width - |s|) + s
  }

  /** Go's `fmt.Sprintf("%0<width>d", n)` for a non-negative `n`. */
  function FormatZeroPadded(n: nat, width: nat): string {
    PadLeft(Decimal(n), width)
  }

  /** The suffix `randomizeName` appends: the last four decimal digits of the
      Unix timestamp, zero-padded (`%04d` of `timestamp % 10000`). Go's `%`
      truncates toward zero, which agrees with Dafny's for the non-negative
      timestamps `time.Now().Unix()` yields. */
  function Suffix(timestamp: int): string
    requires timestamp >= 0
  {
    FormatZeroPadded(timestamp % 10000, 4)
  }

  /** `randomizeName(ctrName)`, with the clock reading passed in as `timestamp`.
      The source returns `s + last4`, where `s` is not declared; the evident
      intent is the parameter `ctrName`, which is what this model uses. */
  function RandomizeName(ctrName: string, timestamp: int): (name: string)
    requires timestamp >= 0
    ensures |name| == |ctrName| + 4
    ensures name[..|ctrName|] == ctrName
    ensures name[|ctrName|..] == Suffix(timestamp)
  {
    SuffixShape(timestamp);
    ctrName + Suffix(timestamp)
  }

  // ---------------------------------------------------------------------
  // Lemmas about the digit functions
  // ---------------------------------------------------------------------

  /** Reading back what `Decimal` prints gives the number. */
  lemma {:induction false} DecimalValue(n: nat)
    ensures ValueOf(Decimal(n)) == n
    decreases n
  {
    var s := Decimal(n);
    if n < 10 {
      assert s[..0] == [];
    } else {
      DecimalValue(n / 10);
      assert s[..|s| - 1] == Decimal(n / 10);
    }
  }

  /** A number below 10^k has at most k digits. */
  lemma {:induction false} DecimalLength(n: nat, k: nat)
    requires 1 <= k && n < Pow10(k)
    ensures |Decimal(n)| <= k
    decreases n
  {
    if n >= 10 {
      DecimalLength(n / 10, k - 1);
    }
  }

  /** The digits `Decimal` prints denote a number below 10^(their count). */
  lemma DecimalUpper(n: nat)
    ensures n < Pow10(|Decimal(n)|)
  {
    DecimalValue(n);
    ValueOfBound(Decimal(n));
  }

  /** Leading zeros do not change the value of a digit string. */
  lemma {:induction false} ValueOfLeadingZeros(k: nat, s: string)
    requires AllDigits(s)
    ensures AllDigits(Zeros(k) + s) && ValueOf(Zeros(k) + s) == ValueOf(s)
    decreases |s|
  {
    var t := Zeros(k) + s;
    if s == [] {
      assert t == Zeros(k);
      ValueOfZeros(k);
    } else {
      var s' := s[..|s| - 1];
      assert t[..|t| - 1] == Zeros(k) + s';
      ValueOfLeadingZeros(k, s');
    }
  }

  lemma {:induction false} ValueOfZeros(k: nat)
    ensures AllDigits(Zeros(k)) && ValueOf(Zeros(k)) == 0
    decreases k
  {
    if k > 0 {
      assert Zeros(k)[..k - 1] == Zeros(k - 1);
      ValueOfZeros(k - 1);
    }
  }

  /** A string of k digits denotes a number below 10^k. */
  lemma {:induction false} ValueOfBound(s: string)
    requires AllDigits(s)
    ensures ValueOf(s) < Pow10(|s|)
    decreases |s|
  {
    if s != [] {
      ValueOfBound(s[..|s| - 1]);
    }
  }

  /** `%0<width>d` prints exactly `width` digits whenever the number fits,
      and they read back as the number. */
  lemma FormatZeroPaddedShape(n: nat, width: nat)
    requires 1 <= width && n < Pow10(width)
    ensures var s := FormatZeroPadded(n, width);
      |s| == width && AllDigits(s) && ValueOf(s) == n
  {
    DecimalLength(n, width);
    DecimalValue(n);
    ValueOfLeadingZeros(width - |Decimal(n)|, Decimal(n));
  }

  // ---------------------------------------------------------------------
  // Lemmas about randomizeName
  // ---------------------------------------------------------------------

  /** The suffix is four decimal digits that read back as `timestamp % 10000`. */
  lemma SuffixShape(timestamp: int)
    requires timestamp >= 0
    ensures |Suffix(timestamp)| == 4 && AllDigits(Suffix(timestamp))
    ensures ValueOf(Suffix(timestamp)) == timestamp % 10000
  {
    assert Pow10(4) == 10000;
    FormatZeroPaddedShape(timestamp % 10000, 4);
  }

  /** The suffix starts with a padding zero exactly when the last four
      digits of the timestamp are below 1000. */
  lemma SuffixLeadingZero(timestamp: int)
    requires timestamp >= 0
    ensures Suffix(timestamp)[0] == '0' <==> timestamp % 10000 < 1000
  {
    var n := timestamp % 10000;
    var s := Suffix(timestamp);
    SuffixShape(timestamp);
    assert Pow10(3) == 1000;
    if n < 1000 {
      DecimalLength(n, 3);
    } else {
      DecimalLength(n, 4);
      DecimalUpper(n);
      assert Pow10(1) == 10 && Pow10(2) == 100;
      assert |Decimal(n)| == 4;
      assert s == Decimal(n);
    }
  }

  /** Two names built from one prefix are equal exactly when the timestamps
      agree modulo 10000: the name is a function of (prefix, timestamp), and
      timestamps 10000 seconds apart collide. */
  lemma NameCollision(ctrName: string, t1: int, t2: int)
    requires t1 >= 0 && t2 >= 0
    ensures RandomizeName(ctrName, t1) == RandomizeName(ctrName, t2) <==> t1 % 10000 == t2 % 10000
  {
    if RandomizeName(ctrName, t1) == RandomizeName(ctrName, t2) {
      assert Suffix(t1) == RandomizeName(ctrName, t1)[|ctrName|..];
      SuffixShape(t1);
      SuffixShape(t2);
    }
  }

  /** A clock reading of 1700001234 seconds names the container `firefox_go1234`;
      one of 1700000042 pads the suffix to `0042`. */
  lemma ScenarioNames()
    ensures RandomizeName("firefox_go", 1700001234) == "firefox_go1234"
    ensures RandomizeName("firefox_go", 1700000042) == "firefox_go0042"
  {
    assert Decimal(1234) == "1234" by {
      assert Decimal(1) == "1";
      assert Decimal(12) == Decimal(1) + "2";
      assert Decimal(123) == Decimal(12) + "3";
    }
    assert Decimal(42) == "42" by {
      assert Decimal(4) == "4";
    }
    assert Zeros(2) == "00" by {
      assert Zeros(1) == Zeros(0) + "0";
    }
  }

  // ---------------------------------------------------------------------
  // Port-publishing policy (the constant portSet and portMap)
  // ---------------------------------------------------------------------

  /** A host-side binding of a container port, as `nat.PortBinding`. */
  datatype PortBinding = PortBinding(hostIP: string, hostPort: string)

  /** The container ports exposed, in the runtime's "<number>/<protocol>" form. */
  const ExposedPorts: set<string> := {"5800/tcp", "5900/tcp"}

  /** The host bindings for the exposed ports. */
  const PortBindings: map<string, seq<PortBinding>> :=
    map["5800/tcp" := [PortBinding("localhost", "5800")],
        "5900/tcp" := [PortBinding("localhost", "5900")]]

  /** The port number of a "<number>/<protocol>" key: everything before the first '/'. */
  function PortNumber(port: string): (n: string)
    ensures |n| <= |port| && n == port[..|n|]
    ensures forall i :: 0 <= i < |n| ==> n[i] != '/'
    ensures |n| < |port| ==> port[|n|] == '/'
  {
    if port == [] || port[0] == '/' then [] else [port[0]] + PortNumber(port[1..])
  }

  /** Exactly the two display ports 5800/tcp and 5900/tcp are exposed. */
  lemma ExposedPortsAreTwo()
    ensures ExposedPorts == {"5800/tcp", "5900/tcp"} && |ExposedPorts| == 2
  {
    assert "5800/tcp" != "5900/tcp" by { assert "5800/tcp"[1] != "5900/tcp"[1]; }
  }

  /** Every exposed port — and nothing else — has exactly one binding, on
      `localhost`, to the host port with the same number. */
  lemma PortBindingsMirrorExposed()
    ensures PortBindings.Keys == ExposedPorts
    ensures forall p :: p in PortBindings ==>
      |PortBindings[p]| == 1 && PortBindings[p][0] == PortBinding("localhost", PortNumber(p))
  {
    PortNumberOfKey("5800", "tcp");
    PortNumberOfKey("5900", "tcp");
    assert PortBindings.Keys == ExposedPorts;
    forall p | p in PortBindings
      ensures |PortBindings[p]| == 1 && PortBindings[p][0] == PortBinding("localhost", PortNumber(p))
    {
      if p == "5800/tcp" {
        assert "5800/tcp" == "5800" + "/" + "tcp";
      } else {
        assert p == "5900/tcp" == "5900" + "/" + "tcp";
      }
    }
  }

  /** A key "<number>/<protocol>" whose number holds no '/' yields that number. */
  lemma {:induction false} PortNumberOfKey(number: string, proto: string)
    requires forall i :: 0 <= i < |number| ==> number[i] != '/'
    ensures PortNumber(number + "/" + proto) == number
    decreases |number|
  {
    var key := number + "/" + proto;
    if number != [] {
      assert key[1..] == number[1..] + "/" + proto;
      PortNumberOfKey(number[1..], proto);
    }
  }
}

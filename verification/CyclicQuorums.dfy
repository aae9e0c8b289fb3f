/**
 The deployed quorums: client i's quorum is the window of k consecutive ids starting at i,
 counted modulo n.
*/
module CyclicQuorums {
  import opened MaekawaSystem
  import MaekawaSafety
  import MaekawaExact

  /** The d-th client after client i. */
  function Wrap(i: nat, d: nat, n: nat): (r: nat)
    requires n > 0
    ensures i < n && d <= n ==> r == if i + d < n then i + d else i + d - n
  {
    Quotient(i + d, n);
    (i + d) % n
  }

  lemma Quotient(x: nat, n: nat)
    requires n > 0
    ensures x < n ==> x % n == x
    ensures n <= x < 2 * n ==> x % n == x - n
  {
    var q := x / n;
    assert x == n * q + x % n;
    if q == 0 {
      assert n * q == 0;
    } else if q == 1 {
      assert n * q == n;
    } else {
      assert n * (q - 2) >= 0;
      assert n * q == 2 * n + n * (q - 2);
    }
  }

  ghost function Window(i: nat, k: nat, n: nat): set<nat>
    requires n > 0
  {
    set d: nat | d < k :: Wrap(i, d, n)
  }

  lemma WindowMember(i: nat, k: nat, n: nat, x: nat) returns (d: nat)
    requires n > 0 && i < n && k <= n && x in Window(i, k, n)
    ensures d < k && x == Wrap(i, d, n) && x < n
  {
    d :| d < k && x == Wrap(i, d, n);
  }

  /** All windows of length k meet each other exactly when they are longer than half the ring. */
  lemma WindowsMeetIffMajority(k: nat, n: nat)
    requires 0 < n && k <= n
    ensures (forall i: nat, j: nat :: i < n && j < n ==> Window(i, k, n) * Window(j, k, n) != {})
       <==> 2 * k > n
  {
    if 2 * k > n {
      forall i: nat, j: nat | i < n && j < n ensures Window(i, k, n) * Window(j, k, n) != {} {
        if i <= j { MeetForward(i, j, k, n); } else { MeetForward(j, i, k, n); }
      }
    } else {
      Disjoint(k, n);
    }
  }

  lemma MeetForward(i: nat, j: nat, k: nat, n: nat)
    requires i <= j < n && k <= n && 2 * k > n
    ensures Window(i, k, n) * Window(j, k, n) != {}
  {
    if j - i < k {
      assert Wrap(i, j - i, n) == Wrap(j, 0, n);
      assert Wrap(j, 0, n) in Window(i, k, n) * Window(j, k, n);
    } else {
      assert Wrap(j, n - (j - i), n) == Wrap(i, 0, n);
      assert Wrap(i, 0, n) in Window(i, k, n) * Window(j, k, n);
    }
  }

  lemma Disjoint(k: nat, n: nat)
    requires 0 < n && 2 * k <= n
    ensures k < n && Window(0, k, n) * Window(k, k, n) == {}
  {
  }

  /** Five clients, quorums of three, waiting queues of capacity 100. */
  ghost function Deployed(): Config {
    Config(seq(5, i requires 0 <= i < 5 => Window(i, 3, 5)), 100)
  }

  lemma DeployedConfig()
    ensures GoodConfig(Deployed()) && PairwiseIntersecting(Deployed())
  {
    forall i: nat | i < 5 ensures forall x <- Deployed().quorums[i] :: x < 5 {
      forall x | x in Window(i, 3, 5) ensures x < 5 { var _ := WindowMember(i, 3, 5, x); }
    }
    forall i: nat, j: nat | i < j < 5 ensures Deployed().quorums[i] * Deployed().quorums[j] != {} {
      MeetForward(i, j, 3, 5);
    }
  }

  /** They are the quorums of the configuration files. */
  lemma DeployedQuorums()
    ensures Deployed().quorums == [{0, 1, 2}, {1, 2, 3}, {2, 3, 4}, {3, 4, 0}, {4, 0, 1}]
  {
    WindowOfThree(0);
    WindowOfThree(1);
    WindowOfThree(2);
    WindowOfThree(3);
    WindowOfThree(4);
  }

  lemma DeployedIsSafe(es: seq<Event>)
    requires TimelyRun(Deployed(), Init(Deployed()), es)
    ensures var t := After(Deployed(), Init(Deployed()), es);
      && |t.phase| == 5
      && forall i, k :: 0 <= i < k < 5 ==> !(t.phase[i] == Inside && t.phase[k] == Inside)
  {
    DeployedConfig();
    MaekawaSafety.MutualExclusion(Deployed(), es);
  }

  /** Not every run of the deployed configuration is timely, or safe: its first two windows share two ids. */
  lemma DeployedBreaks() returns (es: seq<Event>)
    ensures MaekawaExact.Breaks(Deployed(), es)
    ensures !MaekawaExact.AlwaysExclusive(Deployed()) && !MaekawaExact.ExclusiveInOrder(Deployed())
  {
    DeployedConfig();
    DeployedQuorums();
    var both := Deployed().quorums[0] * Deployed().quorums[1];
    assert 1 in both && 2 in both;
    assert forall c: nat :: both != {c};
    assert !MaekawaExact.MeetInOne(Deployed());
    es := MaekawaExact.LateRelinquishBreaksMutualExclusion(Deployed());
    MaekawaExact.ExclusiveIffMeetInOne(Deployed());
  }

  lemma WindowOfThree(i: nat)
    requires i < 5
    ensures Window(i, 3, 5) == {Wrap(i, 0, 5), Wrap(i, 1, 5), Wrap(i, 2, 5)}
  {
  }
}

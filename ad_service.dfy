/**
 * `AdService`: the static initialisation flag and the interstitial
 * frequency counter. The AdMob calls are abstract: the outcome of showing an
 * ad and of the development-build test-device setup are inputs. Loading an
 * ad catches its own errors, so it cannot make `initialize` fail; the
 * delayed reload after a shown ad is not modelled.
 */
module Ads {

  /** `AD_FREQUENCY`: one interstitial attempt every third call. */
  const AdFrequency: int := 3

  /** What `showInterstitialAd` meets: no ad ready, an ad shown, or an exception. */
  datatype AdOutcome = NotReady | Displayed | Failed

  class AdService {
    var isInitialized: bool
    var adViewCount: int

    /** The static fields' initial values. */
    constructor()
      ensures !isInitialized && adViewCount == 0
    {
      isInitialized := false;
      adViewCount := 0;
    }

    /**
     * `initialize`: a no-op once initialised; otherwise set the test device
     * (only in a development build, and that call may throw), preload an ad,
     * and only then record success.
     */
    method Initialize(devBuild: bool, testDeviceOk: bool)
      modifies this`isInitialized
      ensures old(isInitialized) ==> isInitialized
      ensures !old(isInitialized) ==> (isInitialized <==> !devBuild || testDeviceOk)
    {
      if isInitialized {
        return;
      }
      if devBuild && !testDeviceOk {
        return;
      }
      isInitialized := true;
    }

    /** `showInterstitialAd`: true only when a ready ad was shown; false when none is ready or on error. */
    static method ShowInterstitialAd(outcome: AdOutcome) returns (shown: bool)
      ensures shown <==> outcome == Displayed
    {
      match outcome
      case Displayed => shown := true;
      case NotReady => shown := false;
      case Failed => shown := false;
    }

    /** `maybeShowInterstitialAd`: count the call, and attempt an ad when the count is a multiple of three. */
    method MaybeShowInterstitialAd(outcome: AdOutcome) returns (attempted: bool, shown: bool)
      modifies this`adViewCount
      ensures adViewCount == old(adViewCount) + 1
      ensures attempted <==> adViewCount % AdFrequency == 0
      ensures shown <==> attempted && outcome == Displayed
    {
      adViewCount := adViewCount + 1;
      attempted := adViewCount % AdFrequency == 0;
      shown := false;
      if attempted {
        shown := ShowInterstitialAd(outcome);
      }
    }

    /** `resetAdCounter`. */
    method ResetAdCounter()
      modifies this`adViewCount
      ensures adViewCount == 0
    {
      adViewCount := 0;
    }
  }

  /**
   * Number of ads `MaybeShowInterstitialAd` attempts over `n` further calls
   * when `adViewCount` stands at `count`: call `k` (1-based) raises the
   * count to `count + k` and attempts iff that is a multiple of three,
   * exactly as its `attempted` postcondition says.
   */
  function Attempts(count: int, n: nat): nat {
    if n == 0 then 0
    else Attempts(count, n - 1) + (if (count + n) % AdFrequency == 0 then 1 else 0)
  }

  /** Any three consecutive calls make exactly one attempt. */
  lemma {:induction false} OneAttemptPerThreeCalls(count: int)
    ensures Attempts(count, 3) == 1
  {
    assert Attempts(count, 1) == (if (count + 1) % 3 == 0 then 1 else 0);
    assert Attempts(count, 2) == Attempts(count, 1) + (if (count + 2) % 3 == 0 then 1 else 0);
  }

  /** From a reset counter, `n` calls make `n / 3` attempts: the third, sixth, ninth … */
  lemma {:induction false} EveryThirdCall(n: nat)
    ensures Attempts(0, n) == n / AdFrequency
    decreases n
  {
    if n >= 3 {
      EveryThirdCall(n - 3);
      AttemptsSplit(0, n - 3, 3);
      OneAttemptPerThreeCalls(n - 3);
    } else {
      assert Attempts(0, 1) == 0;
    }
  }

  lemma {:induction false} AttemptsSplit(count: int, a: nat, b: nat)
    ensures Attempts(count, a + b) == Attempts(count, a) + Attempts(count + a, b)
    decreases b
  {
    if b > 0 {
      AttemptsSplit(count, a, b - 1);
    }
  }
}

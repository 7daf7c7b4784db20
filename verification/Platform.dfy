/** The singleton configuration account: its fees are checked once and never change afterwards. */
module Platform {
  import opened Types

  datatype Config = Config(
    admin: Address,
    treasury: Address,
    originationFeeBps: u16,
    performanceFeeBps: u16,
    hurdleRateBps: u16
  )

  predicate Capped(c: Config) {
    c.originationFeeBps <= MAX_FEE_BPS && c.performanceFeeBps <= MAX_FEE_BPS && c.hurdleRateBps <= MAX_FEE_BPS
  }

  /** A fee of up to 10_000 basis points, that is 100%, is accepted, and none above. */
  lemma CapIsWhole(c: Config)
    ensures Capped(c) <==>
            c.originationFeeBps <= 10_000 && c.performanceFeeBps <= 10_000 && c.hurdleRateBps <= 10_000
  {
  }

  class PlatformAccount {
    var initialized: bool
    var config: Config

    /** An account that the program has not initialized yet. */
    constructor ()
      ensures !initialized
    {
      initialized := false;
      config := Config(0, 0, 0, 0, 0);
    }

    /** Anyone may initialize the platform, once; the fees must be capped. */
    method Initialize(admin: Address, treasury: Address, origination: u16, performance: u16, hurdle: u16)
      returns (r: Result<()>)
      modifies this
      ensures var c := Config(admin, treasury, origination, performance, hurdle);
              && (r.Ok? <==>
                  !old(initialized) && origination <= 10_000 && performance <= 10_000 && hurdle <= 10_000)
              && (r.Ok? ==> Capped(config))
              && (r.Ok? ==> initialized && config == c)
              && (r.Err? ==> initialized == old(initialized) && config == old(config))
              && (r.Err? ==> r.error == if old(initialized) then AccountAlreadyInUse else InvalidFeeBps)
    {
      var _ :- Require(!initialized, AccountAlreadyInUse);
      var _ :- Require(
        origination <= MAX_FEE_BPS && performance <= MAX_FEE_BPS && hurdle <= MAX_FEE_BPS,
        InvalidFeeBps);
      config := Config(admin, treasury, origination, performance, hurdle);
      initialized := true;
      r := Ok(());
    }
  }
}

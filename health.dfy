/**
 * The process-wide health flag and its two handlers. The flag is modelled
 * sequentially: each load and each store happens on its own, one request at a time.
 */
module Health {
  import opened Http
  import opened Handlers

  class HealthFlag {
    var healthy: bool

    /** The flag is created healthy. */
    constructor ()
      ensures healthy
    {
      healthy := true;
    }

    method Load() returns (v: bool)
      ensures v == healthy
    {
      v := healthy;
    }

    method Store(v: bool)
      modifies this
      ensures healthy == v
    {
      healthy := v;
    }

    /** The health query: reads the flag and answers 200 "OK" or 503 "KO", changing nothing. */
    method Query() returns (resp: Response)
      ensures resp == HealthResponse(healthy)
      ensures resp.status == OK <==> healthy
    {
      var h := Load();
      resp := HealthResponse(h);
    }

    /** The toggle: loads the flag, stores its negation and reports the value it stored. */
    method Toggle() returns (resp: Response)
      modifies this
      ensures healthy == !old(healthy)
      ensures resp == ToggleResponse(healthy)
    {
      var current := Load();
      var hc := !current;
      Store(hc);
      resp := ToggleResponse(hc);
    }
  }

  /** The flag after `n` toggles starting from `b`. */
  function AfterToggles(b: bool, n: nat): bool
  {
    if n == 0 then b else !AfterToggles(b, n - 1)
  }

  /** Only the parity of the number of toggles matters. */
  lemma {:induction false} ToggleParity(b: bool, n: nat)
    ensures AfterToggles(b, n) == if n % 2 == 0 then b else !b
  {
    if n > 0 {
      ToggleParity(b, n - 1);
    }
  }

  /** Toggling twice restores the flag. */
  lemma {:induction false} ToggleTwice(b: bool, n: nat)
    ensures AfterToggles(b, n + 2) == AfterToggles(b, n)
  {
  }

  /** From the initial healthy flag, a query after `n` toggles answers 200 "OK" iff `n` is even and 503 "KO" iff odd. */
  lemma QueryAfterToggles(n: nat)
    ensures HealthResponse(AfterToggles(true, n)) == Html(OK, "OK") <==> n % 2 == 0
    ensures HealthResponse(AfterToggles(true, n)) == Html(SERVICE_UNAVAILABLE, "KO") <==> n % 2 == 1
  {
  }
}

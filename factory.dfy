/** The pool's object factory: it makes a launched browser, destroys one by
    removing its container, and judges a browser too old to hand out again
    once more than a second has passed since its launch finished. */
module Factory {
  import opened Failure
  import opened Backend
  import opened Browsers

  /** `maxBrowserAge`: one second, in nanoseconds. */
  const MaxBrowserAge: int := 1_000_000_000

  /** The range of Go's `time.Duration`, a signed 64-bit count of nanoseconds. */
  const MinDuration: int := -0x8000_0000_0000_0000
  const MaxDuration: int := 0x7fff_ffff_ffff_ffff

  /** `time.Since(t)` at instant `now`: the elapsed time, saturated to the
      bounds of a Duration when it does not fit. */
  function Since(now: int, t: int): (d: int)
    ensures MinDuration <= d <= MaxDuration
  {
    var elapsed := now - t;
    if elapsed > MaxDuration then MaxDuration
    else if elapsed < MinDuration then MinDuration
    else elapsed
  }

  /** What the pool holds: the browser it was given, as the `Object` of a pooled object. */
  datatype PooledObject = PooledObject(browser: Browser)

  /** `MakeObject`: make a browser and launch it. An error from making the
      client or from any launch step is returned unchanged and no object is
      made; otherwise the launched browser is wrapped for the pool. */
  method MakeObject(newClient: Result<Client>, host: Host) returns (r: Result<PooledObject>)
    ensures newClient.Err? ==> r == Err(newClient.failure)
    ensures newClient.Ok? && LaunchOutcome(newClient.value, host).Fail? ==>
              r == Err(LaunchOutcome(newClient.value, host).failure)
    ensures newClient.Ok? && LaunchOutcome(newClient.value, host).Pass? ==>
              r.Ok? && fresh(r.value.browser) && r.value.browser.cli == newClient.value
              && r.value.browser.creationTime == host.now
              && r.value.browser.port == host.freePort.value
              && r.value.browser.id == CreateResult(newClient.value, host).value
              && r.value.browser.debugURL == GetDebugURL(host, host.freePort.value).value
  {
    var made := NewBrowser(newClient);
    if made.Err? {
      return Err(made.failure);
    }
    var browser := made.value;
    var err := browser.Launch(host);
    if err.Fail? {
      return Err(err.failure);
    }
    return Ok(PooledObject(browser));
  }

  /** `DestroyObject`: close the wrapped browser and return what closing gave. */
  method DestroyObject(obj: PooledObject, newClient: Result<Client>) returns (err: Outcome)
    ensures newClient.Err? ==> err == Fail(newClient.failure)
    ensures newClient.Ok? ==> err == newClient.value.containerRemove(obj.browser.id, true)
  {
    err := obj.browser.Close(newClient);
  }

  /** `ValidateObject` at instant `now`: a browser stays valid unless more
      than `MaxBrowserAge` has passed since its creation time. Saturating the
      elapsed time never changes the verdict, since the limit lies well
      inside a Duration's range. */
  function ValidateObject(obj: PooledObject, now: int): (valid: bool)
    reads obj.browser`creationTime
    ensures valid <==> now - obj.browser.creationTime <= MaxBrowserAge
  {
    !(Since(now, obj.browser.creationTime) > MaxBrowserAge)
  }

  /** The age limit is inclusive: a browser exactly `MaxBrowserAge` old is
      still valid, and one a nanosecond older is not. */
  lemma ValidAtExactlyMaxAge(obj: PooledObject, now: int)
    ensures now - obj.browser.creationTime == MaxBrowserAge ==> ValidateObject(obj, now)
    ensures now - obj.browser.creationTime == MaxBrowserAge + 1 ==> !ValidateObject(obj, now)
  {
  }

  /** A browser whose launch never finished keeps the zero creation time, so
      at any instant more than a second after it the pool discards it. */
  lemma UnlaunchedIsInvalid(obj: PooledObject, now: int)
    requires obj.browser.creationTime == ZeroTime && now > ZeroTime + MaxBrowserAge
    ensures !ValidateObject(obj, now)
  {
  }

  /** `ActivateObject`: nothing to do. */
  function ActivateObject(obj: PooledObject): (err: Outcome)
    ensures err == Pass
  {
    Pass
  }

  /** `PassivateObject`: nothing to do. */
  function PassivateObject(obj: PooledObject): (err: Outcome)
    ensures err == Pass
  {
    Pass
  }
}

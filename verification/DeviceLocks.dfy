/** The lock on the one modem device (internal/modem/pool.go). */
module DeviceLocks {
  class DeviceLock {
    var activeSite: string  // "" means idle

    constructor ()
      ensures activeSite == ""
    {
      activeSite := "";
    }

    // `present` is what os.Stat says about the device path at that moment.
    method Acquire(siteName: string, present: bool) returns (ok: bool)
      modifies this
      ensures ok <==> old(activeSite) == "" && present
      ensures activeSite == if ok then siteName else old(activeSite)
    {
      if activeSite != "" {
        return false;
      }
      if !present {
        return false;
      }
      activeSite := siteName;
      return true;
    }

    // No owner is checked: whoever calls this frees the lock.
    method Release()
      modifies this
      ensures activeSite == ""
    {
      activeSite := "";
    }
  }
}

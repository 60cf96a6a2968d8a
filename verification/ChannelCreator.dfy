/** `ChannelCreator`: the object behind the creators of the reservation, with its two semaphores. */
module ChannelCreator {
  import opened Reservation

  /** `Refused` is the null a shut-down creator returns, `Exhausted` the exception for asking for more
      channels than announced. */
  datatype Created = Channel | Refused | Exhausted

  class Creator {
    const max: Permits
    var semaphoreUdp: nat
    var semaphoreTcp: nat
    var shutdownUdp: bool
    var shutdownTcp: bool
    var again: bool
    var drained: bool
    var done: bool

    ghost predicate Valid()
      reads this
    {
      semaphoreUdp <= max.udp && semaphoreTcp <= max.tcp && shutdownUdp == shutdownTcp
    }

    /** The creator as the reservation sees it, before any listener of its shutdown future has run. */
    ghost function View(): (c: Reservation.Creator)
      requires Valid()
      reads this
    {
      // once drained the semaphores are empty although no channel is open
      var open := if drained then Permits(0, 0) else Permits(max.udp - semaphoreUdp, max.tcp - semaphoreTcp);
      Reservation.Creator(max, open, shutdownUdp, again, drained, done, NoneRun, false)
    }

    constructor (max: Permits)
      ensures Valid() && this.max == max && View() == FreshCreator(max)
    {
      this.max := max;
      semaphoreUdp, semaphoreTcp := max.udp, max.tcp;
      shutdownUdp, shutdownTcp, again, drained, done := false, false, false, false, false;
    }

    method CreateUdp() returns (r: Created)
      requires Valid() && (drained ==> shutdownUdp)
      modifies this`semaphoreUdp
      ensures Valid() && View() == Opened(old(View()), Udp)
      ensures r == Refused <==> old(View()).shut
      ensures r == Channel <==> View() != old(View())
    {
      if shutdownUdp {
        return Refused;
      }
      if semaphoreUdp == 0 {
        return Exhausted;
      }
      semaphoreUdp := semaphoreUdp - 1;
      r := Channel;
    }

    method CreateTcp() returns (r: Created)
      requires Valid() && (drained ==> shutdownTcp)
      modifies this`semaphoreTcp
      ensures Valid() && View() == Opened(old(View()), Tcp)
      ensures r == Refused <==> old(View()).shut
      ensures r == Channel <==> View() != old(View())
    {
      if shutdownTcp {
        return Refused;
      }
      if semaphoreTcp == 0 {
        return Exhausted;
      }
      semaphoreTcp := semaphoreTcp - 1;
      r := Channel;
    }

    /** The close listener of a channel. */
    method ChannelClosed(k: Kind)
      requires Valid() && Of(View().open, k) > 0
      modifies this`semaphoreUdp, this`semaphoreTcp
      ensures Valid() && View() == Closed(old(View()), k)
    {
      if k == Udp {
        semaphoreUdp := semaphoreUdp + 1;
      } else {
        semaphoreTcp := semaphoreTcp + 1;
      }
    }

    method Shutdown()
      requires Valid()
      modifies this`shutdownUdp, this`shutdownTcp, this`again, this`done
      ensures Valid() && View() == Shut(old(View()))
    {
      if shutdownUdp || shutdownTcp {
        again, done := true, true;
        return;
      }
      shutdownUdp, shutdownTcp := true, true;
    }

    /** The callback of the closed channel group, which waits until it has every permit. */
    method GroupClosed()
      requires Valid() && shutdownUdp && !drained && semaphoreUdp == max.udp && semaphoreTcp == max.tcp
      modifies this`semaphoreUdp, this`semaphoreTcp, this`drained, this`done
      ensures Valid() && old(View()).open == Permits(0, 0) && View() == old(View()).(drained := true, done := true)
    {
      semaphoreUdp, semaphoreTcp := 0, 0;
      drained, done := true, true;
    }
  }
}

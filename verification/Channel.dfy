/** net/Channel and net/Poller: a descriptor's interest mask and its copy in the
    kernel's epoll set. */
module Channels {
  import opened Text

  datatype Interest = Interest(read: bool, write: bool)

  const NO_EVENT := Interest(false, false)

  /** `kernel` is the mask epoll holds for the descriptor, if it holds one. */
  datatype ChannelView = ChannelView(events: Interest, writing: bool, kernel: Option<Interest>)

  class Channel {
    var events: Interest
    var writing: bool
    var added: bool // index_: kNew or kAdded
    var kernel: Option<Interest>

    /** The kernel's copy and the two flags never disagree between calls. */
    ghost predicate Valid()
      reads this
    {
      && (added <==> kernel.Some?)
      && (added ==> kernel.value == events)
      && writing == events.write
    }

    ghost function View(): ChannelView
      reads this
    {
      ChannelView(events, writing, kernel)
    }

    constructor ()
      ensures Valid() && View() == ChannelView(NO_EVENT, false, None)
    {
      events, writing, added, kernel := NO_EVENT, false, false, None;
    }

    /** `Poller::upDateChannel`: ADD a new channel, MOD a known one. */
    method Update()
      requires added <==> kernel.Some?
      modifies `added, `kernel
      ensures added && kernel == Some(events)
    {
      if !added {
        kernel := Some(events);
        added := true;
      } else if kernel.Some? {
        kernel := Some(events);
      }
    }

    method EnableReading()
      requires Valid()
      modifies this
      ensures Valid()
      ensures var e := old(events).(read := true); View() == ChannelView(e, old(writing), Some(e))
    {
      events := events.(read := true);
      Update();
    }

    method EnableWriting()
      requires Valid()
      modifies this
      ensures Valid()
      ensures var e := old(events).(write := true); View() == ChannelView(e, true, Some(e))
    {
      writing := true;
      events := events.(write := true);
      Update();
    }

    method DisableWriting()
      requires Valid()
      modifies this
      ensures Valid()
      ensures var e := old(events).(write := false); View() == ChannelView(e, false, Some(e))
    {
      events := events.(write := false);
      Update();
      writing := false;
    }

    method DisableAll()
      requires Valid()
      modifies this
      ensures Valid() && View() == ChannelView(NO_EVENT, false, Some(NO_EVENT))
    {
      events := NO_EVENT;
      Update();
      writing := false;
    }

    /** `disableAll` first: a channel that is not in epoll goes in and out again. */
    method Remove()
      requires Valid()
      modifies this
      ensures Valid() && View() == ChannelView(NO_EVENT, false, None)
    {
      DisableAll();
      kernel := None;
      added := false;
    }
  }
}

/**
 * The GBA sound FIFO (src/cpu/fifo.rs): a deque of at most 32 signed samples,
 * filled at the front and drained from the back into a sound buffer.
 *
 * `data` is kept in deque order, so data[0] is the front (newest sample) and
 * data[|data| - 1] the back (oldest). The ghost fields record the history
 * since the last reset: every pushed sample, every sample moved into the
 * sound buffer, and for each moved sample its position in the push history.
 */
module Fifo {

  const Capacity := 32

  class Fifo {
    var data: seq<bv8>
    var soundBuffer: seq<bv8>
    var resetFlag: bool

    ghost var pushed: seq<bv8>
    ghost var delivered: seq<bv8>
    ghost var origin: seq<nat>

    /**
     * The deque never holds more than 32 samples and holds the most recent
     * pushes, newest first; every delivered sample was pushed before the ones
     * still queued, and samples are delivered in push order; the sound buffer
     * holds the latest deliveries.
     */
    ghost predicate Valid()
      reads this
    {
      && |data| <= Capacity
      && |data| <= |pushed|
      && (forall i :: 0 <= i < |data| ==> data[i] == pushed[|pushed| - 1 - i])
      && |origin| == |delivered|
      && (forall k :: 0 <= k < |origin| ==>
            origin[k] < |pushed| - |data| && delivered[k] == pushed[origin[k]])
      && (forall k, k' :: 0 <= k < k' < |origin| ==> origin[k] < origin[k'])
      && |soundBuffer| <= |delivered|
      && soundBuffer == delivered[|delivered| - |soundBuffer|..]
    }

    /** new(): both buffers empty and the reset flag clear. */
    constructor ()
      ensures Valid()
      ensures data == [] && soundBuffer == [] && !resetFlag
    {
      data := [];
      soundBuffer := [];
      resetFlag := false;
      pushed := [];
      delivered := [];
      origin := [];
    }

    /** push: when 32 samples are queued the oldest (back) is dropped first. */
    method Push(x: bv8)
      requires Valid()
      modifies this
      ensures Valid()
      ensures data == [x] + (if |old(data)| >= Capacity then old(data)[..|old(data)| - 1] else old(data))
      ensures |data| <= Capacity && data[0] == x
      ensures soundBuffer == old(soundBuffer) && resetFlag == old(resetFlag)
    {
      if |data| >= Capacity {
        data := data[..|data| - 1];
      }
      data := [x] + data;
      pushed := pushed + [x];
    }

    /** reset: sets the flag and empties the deque and the sound buffer. */
    method Reset()
      modifies this
      ensures Valid()
      ensures resetFlag && data == [] && soundBuffer == []
    {
      data, soundBuffer := [], [];
      pushed, delivered, origin := [], [], [];
      resetFlag := true;
    }

    /** get_current_data: the sound buffer. */
    function CurrentData(): seq<bv8>
      reads this
    {
      soundBuffer
    }

    /**
     * inc_note: the back (oldest) sample moves to the end of the sound buffer;
     * nothing happens when the deque is empty.
     */
    method IncNote()
      requires Valid()
      modifies this
      ensures Valid()
      ensures old(data) == [] ==> data == [] && soundBuffer == old(soundBuffer)
      ensures old(data) != [] ==>
        data == old(data)[..|old(data)| - 1] &&
        soundBuffer == old(soundBuffer) + [old(data)[|old(data)| - 1]]
      ensures |data| + |soundBuffer| == |old(data)| + |old(soundBuffer)|
      ensures resetFlag == old(resetFlag)
    {
      if |data| > 0 {
        var d := data[|data| - 1];
        ghost var at := |pushed| - |data|;
        data := data[..|data| - 1];
        soundBuffer := soundBuffer + [d];
        delivered := delivered + [d];
        origin := origin + [at];
      }
    }

    /** ready_for_more_data: at most 16 samples are queued. */
    function ReadyForMoreData(): (r: bool)
      reads this
      ensures r <==> |data| <= 16
    {
      |data| <= 16
    }

    /** clear_sound_buffer: only the sound buffer is emptied. */
    method ClearSoundBuffer()
      requires Valid()
      modifies this
      ensures Valid()
      ensures soundBuffer == [] && data == old(data) && resetFlag == old(resetFlag)
    {
      soundBuffer := [];
    }
  }

  /**
   * Samples reach the sound buffer in the order they were pushed: for two
   * deliveries, the earlier one was pushed earlier.
   */
  lemma DeliveredInPushOrder(f: Fifo, k: nat, k': nat)
    requires f.Valid() && k < k' < |f.delivered|
    ensures f.origin[k] < f.origin[k'] < |f.pushed|
    ensures f.delivered[k] == f.pushed[f.origin[k]] && f.delivered[k'] == f.pushed[f.origin[k']]
  {
  }
}

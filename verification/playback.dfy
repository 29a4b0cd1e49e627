/** The playback half of the audio pipeline in src/application.py:
    `_on_incoming_audio` fills the decode queue and `_handle_output_audio`
    drains it in batches onto the playback stream. */
module Playback {
  import opened Wrappers
  import opened AppTypes
  import StateMachine

  /** The most packets one output cycle takes from the queue. */
  const BatchLimit: nat := 10

  function Min(a: nat, b: nat): nat { if a <= b then a else b }

  /** `_on_incoming_audio`: a packet is queued only while SPEAKING; otherwise it is dropped. */
  function OnIncomingAudio(app: App, p: Packet): (r: App)
    ensures app.state == Speaking ==> r == app.(playback := app.playback + [p])
    ensures app.state != Speaking ==> r == app
  {
    if app.state == Speaking then app.(playback := app.playback + [p]) else app
  }

  /** The PCM a batch decodes to: the decoded frames of the packets that
      decode, in queue order; a packet whose decode raises adds nothing. */
  function DecodeBatch(batch: seq<Packet>, decode: Packet -> Option<Pcm>): (pcm: Pcm)
    // an empty batch gives nothing; one packet gives its frame, or nothing when it fails
    ensures |batch| == 0 ==> pcm == []
    ensures |batch| == 1 ==> pcm == decode(batch[0]).GetOr([])
  {
    if |batch| == 0 then []
    else decode(batch[0]).GetOr([]) + DecodeBatch(batch[1..], decode)
  }

  /** Decoding distributes over concatenation of batches. */
  lemma {:induction false} DecodeBatchAppend(a: seq<Packet>, b: seq<Packet>, decode: Packet -> Option<Pcm>)
    ensures DecodeBatch(a + b, decode) == DecodeBatch(a, decode) + DecodeBatch(b, decode)
    decreases |a|
  {
    if |a| == 0 {
      assert a + b == b;
    } else {
      assert (a + b)[1..] == a[1..] + b;
      DecodeBatchAppend(a[1..], b, decode);
    }
  }

  /** A packet that fails to decode is skipped without disturbing its neighbours. */
  lemma DecodeSkipsFailure(a: seq<Packet>, p: Packet, b: seq<Packet>, decode: Packet -> Option<Pcm>)
    requires decode(p).None?
    ensures DecodeBatch(a + [p] + b, decode) == DecodeBatch(a + b, decode)
  {
    DecodeBatchAppend(a + [p], b, decode);
    DecodeBatchAppend(a, [p], decode);
    DecodeBatchAppend(a, b, decode);
    assert DecodeBatch([p], decode) == [];
  }

  /** The bytes of a batch are exactly the bytes of its decodable packets, in order. */
  lemma {:induction false} DecodeBatchKeepsDecoded(batch: seq<Packet>, decode: Packet -> Option<Pcm>)
    ensures (forall i :: 0 <= i < |batch| ==> decode(batch[i]).None?) ==> DecodeBatch(batch, decode) == []
    ensures |batch| > 0 && decode(batch[0]).Some? ==>
              DecodeBatch(batch, decode)[..|decode(batch[0]).value|] == decode(batch[0]).value
    decreases |batch|
  {
    if |batch| > 0 {
      DecodeBatchKeepsDecoded(batch[1..], decode);
      if forall i :: 0 <= i < |batch| ==> decode(batch[i]).None? {
        assert forall i :: 0 <= i < |batch[1..]| ==> decode(batch[1..][i]).None? by {
          forall i | 0 <= i < |batch[1..]| ensures decode(batch[1..][i]).None? {
            assert batch[1..][i] == batch[i + 1];
          }
        }
      }
    }
  }

  /** After the batch has been dequeued: write the buffer when it holds data.
      Turning an odd-length buffer into 16-bit samples raises and ends the
      cycle; a "Stream not open" write error reinitialises the stream, any
      other write error is only logged. */
  function WriteBuffer(a: App, buffer: Pcm, hw: Hardware): (r: App)
    ensures Extends(a, r)
    ensures r.state == a.state && r.playback == a.playback && r.aborted == a.aborted
    ensures r.tasks == a.tasks && r.sent == a.sent && r.notified == a.notified && r.workers == a.workers
    ensures r.played == if |buffer| > 0 && |buffer| % 2 == 0 && hw.write == Written
                        then a.played + [buffer] else a.played
  {
    if |buffer| == 0 || |buffer| % 2 != 0 then a
    else match hw.write
      case Written => a.(played := a.played + [buffer])
      case StreamNotOpen =>
        var (b, active) := StateMachine.Reinit(a, hw.output, hw.errorText);
        b.(outputActive := active)
      case OtherWriteError => a
  }

  /** `_handle_output_audio`: one output cycle. */
  function HandleOutputAudio(app: App, decode: Packet -> Option<Pcm>, hw: Hardware): (r: App)
    ensures Extends(app, r)
    // nothing happens outside SPEAKING
    ensures app.state != Speaking ==> r == app
    // a cycle never changes the device state or the flags, and never queues audio
    ensures r.state == app.state && r.aborted == app.aborted && r.tasks == app.tasks
    ensures r.sent == app.sent && r.notified == app.notified && r.workers == app.workers
    // the queue only loses packets from its head: at most BatchLimit, or all on abort
    ensures |r.playback| <= |app.playback| && r.playback == app.playback[|app.playback| - |r.playback|..]
    ensures !app.aborted ==> |r.playback| >= |app.playback| - BatchLimit
    // an observed abort empties the queue and writes nothing
    ensures app.aborted ==> r.played == app.played
    ensures app.state == Speaking && app.aborted && (app.outputActive || !hw.output.startFails) ==> r.playback == []
    // otherwise exactly min(10, |queue|) packets leave and their PCM is written when there is any
    ensures app.state == Speaking && !app.aborted && (app.outputActive || !hw.output.startFails) ==>
              var n := Min(BatchLimit, |app.playback|);
              var buffer := DecodeBatch(app.playback[..n], decode);
              && r.playback == app.playback[n..]
              && r.played == if |buffer| > 0 && |buffer| % 2 == 0 && hw.write == Written
                             then app.played + [buffer] else app.played
  {
    if app.state != Speaking then app
    else if !app.outputActive && hw.output.startFails then app
    else
      var a := app.(outputActive := true);
      var n := Min(BatchLimit, |a.playback|);
      if n == 0 then a
      else if a.aborted then a.(playback := [])
      else
        var buffer := DecodeBatch(a.playback[..n], decode);
        WriteBuffer(a.(playback := a.playback[n..]), buffer, hw)
  }
}

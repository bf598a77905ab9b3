/**
  The call table of the server: a map from call id to call record plus the
  call counters, changed by the incoming-call, answer, playback, hang-up and
  clean-up operations. Each operation is one atomic step; the call id a new
  call receives, and the caller's clock reading, are parameters.
*/
module CallHandler {
  import opened Results
  import Codec
  import ToneGen

  /** `CallStatus`. */
  datatype CallStatus = Ringing | Answered | InProgress | Hanging | Terminated

  /** `CallInfo`; the start instant is a reading of a seconds clock. */
  datatype CallInfo = CallInfo(
    callId: string, callerId: string, calledNumber: string,
    startTime: nat, status: CallStatus, durationSeconds: nat)

  /** The counters of `CallStatistics`; the average duration is not part of the model. */
  datatype CallStatistics = CallStatistics(
    totalCalls: nat, answeredCalls: nat, failedCalls: nat, activeCalls: nat)

  /** The errors the operations report. */
  datatype CallError = MaxConcurrentCallsReached | CallNotFound(id: string) | InvalidDtmfDigit(digit: char)

  const U32Limit: nat := 0x1_0000_0000

  /** `saturating_sub(1)`. */
  function SaturatingDecrement(n: nat): (r: nat)
    ensures n > 0 ==> r == n - 1
    ensures n == 0 ==> r == 0
  {
    if n == 0 then 0 else n - 1
  }

  /** The table with every Terminated entry taken out and all others kept. */
  function WithoutTerminated(calls: map<string, CallInfo>): (r: map<string, CallInfo>)
    ensures forall id :: id in r <==> id in calls && calls[id].status != Terminated
    ensures forall id :: id in r ==> r[id] == calls[id]
  {
    map id | id in calls && calls[id].status != Terminated :: calls[id]
  }

  /** `CallStatistics::default()`. */
  function NoStatistics(): CallStatistics
  {
    CallStatistics(0, 0, 0, 0)
  }

  /** The number of DTMF milliseconds `handle_dtmf` generates per digit. */
  const DtmfDurationMs: nat := 200

  class CallHandler {
    const toneGenerator: ToneGen.ToneGenerator
    var calls: map<string, CallInfo>
    var statistics: CallStatistics
    const autoAnswerDelayMs: nat
    const maxConcurrentCalls: nat

    /**
      The table never holds more calls than the limit, each entry is filed
      under its own id, no entry is ever Terminated, and the active counter
      never exceeds the number of entries, so it fits its 32 bits.
    */
    ghost predicate Valid()
      reads this
    {
      && maxConcurrentCalls < U32Limit
      && |calls| <= maxConcurrentCalls
      && statistics.activeCalls <= |calls|
      && (forall id :: id in calls ==> calls[id].callId == id)
      && (forall id :: id in calls ==> calls[id].status != Terminated)
    }

    /** `CallHandler::new`: an empty table, a 1000 ms answer delay, at most 100 calls. */
    constructor (toneGenerator: ToneGen.ToneGenerator)
      ensures Valid()
      ensures this.toneGenerator == toneGenerator
      ensures calls == map[] && statistics == NoStatistics()
      ensures autoAnswerDelayMs == 1000 && maxConcurrentCalls == 100
    {
      this.toneGenerator := toneGenerator;
      calls := map[];
      statistics := NoStatistics();
      autoAnswerDelayMs := 1000;
      maxConcurrentCalls := 100;
    }

    /** `CallHandler::new_with_config`. */
    constructor WithConfig(toneGenerator: ToneGen.ToneGenerator, autoAnswerDelayMs: nat, maxConcurrentCalls: nat)
      requires maxConcurrentCalls < U32Limit
      ensures Valid()
      ensures this.toneGenerator == toneGenerator
      ensures calls == map[] && statistics == NoStatistics()
      ensures this.autoAnswerDelayMs == autoAnswerDelayMs && this.maxConcurrentCalls == maxConcurrentCalls
    {
      this.toneGenerator := toneGenerator;
      calls := map[];
      statistics := NoStatistics();
      this.autoAnswerDelayMs := autoAnswerDelayMs;
      this.maxConcurrentCalls := maxConcurrentCalls;
    }

    /**
      `update_statistics`, its counters: a failed call is counted, and either
      way the active counter goes down by one unless it is already zero.
    */
    method UpdateStatistics(callCompleted: bool)
      modifies this
      ensures calls == old(calls)
      ensures statistics == old(statistics).(
        failedCalls := old(statistics).failedCalls + (if callCompleted then 0 else 1),
        activeCalls := SaturatingDecrement(old(statistics).activeCalls))
    {
      if !callCompleted {
        statistics := statistics.(failedCalls := statistics.failedCalls + 1);
      }
      statistics := statistics.(activeCalls := SaturatingDecrement(statistics.activeCalls));
    }

    /**
      `handle_incoming_call`, with the new call id `id` and the clock reading
      `now`. With a free slot the call is filed as Ringing and counted; with
      the table full the call is refused, the table is unchanged and the
      refusal is counted as a failed call. Answering is a later step
      (`AutoAnswerCall`).
    */
    method HandleIncomingCall(callerId: string, calledNumber: string, id: string, now: nat)
      returns (r: Result<string, CallError>)
      requires Valid() && id !in calls
      modifies this
      ensures Valid()
      ensures old(|calls|) >= maxConcurrentCalls ==>
        && r == Err(MaxConcurrentCallsReached)
        && calls == old(calls)
        && statistics == old(statistics).(
             failedCalls := old(statistics).failedCalls + 1,
             activeCalls := SaturatingDecrement(old(statistics).activeCalls))
      ensures old(|calls|) < maxConcurrentCalls ==>
        && r == Ok(id)
        && calls == old(calls)[id := CallInfo(id, callerId, calledNumber, now, Ringing, 0)]
        && |calls| == old(|calls|) + 1
        && statistics == old(statistics).(
             totalCalls := old(statistics).totalCalls + 1,
             activeCalls := old(statistics).activeCalls + 1)
    {
      if |calls| >= maxConcurrentCalls {
        UpdateStatistics(false);
        return Err(MaxConcurrentCallsReached);
      }
      calls := calls[id := CallInfo(id, callerId, calledNumber, now, Ringing, 0)];
      statistics := statistics.(totalCalls := statistics.totalCalls + 1,
                                activeCalls := statistics.activeCalls + 1);
      r := Ok(id);
    }

    /** `answer_call`: a known call becomes Answered and is counted; an unknown one is an error. */
    method AnswerCall(id: string) returns (r: Result<(), CallError>)
      requires Valid()
      modifies this
      ensures Valid()
      ensures id in old(calls) ==>
        && r == Ok(())
        && calls == old(calls)[id := old(calls)[id].(status := Answered)]
        && statistics == old(statistics).(answeredCalls := old(statistics).answeredCalls + 1)
      ensures id !in old(calls) ==>
        r == Err(CallNotFound(id)) && calls == old(calls) && statistics == old(statistics)
    {
      if id !in calls {
        return Err(CallNotFound(id));
      }
      calls := calls[id := calls[id].(status := Answered)];
      statistics := statistics.(answeredCalls := statistics.answeredCalls + 1);
      r := Ok(());
    }

    /**
      `hangup_call`: a known call leaves the table and the active counter goes
      down (saturating); an unknown one is an error. The reason is only logged.
    */
    method HangupCall(id: string, reason: string) returns (r: Result<(), CallError>)
      requires Valid()
      modifies this
      ensures Valid()
      ensures id in old(calls) ==>
        && r == Ok(())
        && calls == old(calls) - {id}
        && |calls| == old(|calls|) - 1
        && statistics == old(statistics).(activeCalls := SaturatingDecrement(old(statistics).activeCalls))
      ensures id !in old(calls) ==>
        r == Err(CallNotFound(id)) && calls == old(calls) && statistics == old(statistics)
    {
      if id !in calls {
        return Err(CallNotFound(id));
      }
      calls := calls[id := calls[id].(status := Hanging)];
      calls := calls - {id};
      UpdateStatistics(true);
      r := Ok(());
    }

    /** The first step of `start_tone_playback`: a known call becomes InProgress. */
    method MarkInProgress(id: string) returns (r: Result<(), CallError>)
      requires Valid()
      modifies this
      ensures Valid()
      ensures statistics == old(statistics)
      ensures id in old(calls) ==>
        r == Ok(()) && calls == old(calls)[id := old(calls)[id].(status := InProgress)]
      ensures id !in old(calls) ==> r == Err(CallNotFound(id)) && calls == old(calls)
    {
      if id !in calls {
        return Err(CallNotFound(id));
      }
      calls := calls[id := calls[id].(status := InProgress)];
      r := Ok(());
    }

    /**
      `start_tone_playback`: a known call is put InProgress, the generator's
      tone is encoded to μ-law (the bytes the call would carry, returned
      here), and the call is then hung up. An unknown call is an error and
      changes nothing.
    */
    method StartTonePlayback(id: string, sine: real -> real) returns (r: Result<seq<Codec.Byte>, CallError>)
      requires Valid()
      modifies this, toneGenerator
      ensures Valid()
      ensures id in old(calls) ==>
        && r == Ok(Codec.PcmToMulaw(ToneGen.ToneSamples(old(toneGenerator.config), sine)))
        && calls == old(calls) - {id}
        && statistics == old(statistics).(activeCalls := SaturatingDecrement(old(statistics).activeCalls))
      ensures id !in old(calls) ==>
        r == Err(CallNotFound(id)) && calls == old(calls) && statistics == old(statistics)
      ensures toneGenerator.config == old(toneGenerator.config)
      ensures id in old(calls) ==> !toneGenerator.isGenerating
      ensures id !in old(calls) ==> toneGenerator.isGenerating == old(toneGenerator.isGenerating)
    {
      var marked := MarkInProgress(id);
      if marked.Err? {
        return Err(marked.error);
      }
      var samples := toneGenerator.GenerateTone(sine);
      var mulaw := Codec.PcmToMulaw(samples);
      var hungUp := HangupCall(id, "Tone playback completed");
      r := Ok(mulaw);
    }

    /**
      `auto_answer_call`, run once its delay has passed: a call that is gone
      is left alone without error; a known one is answered, played its tone
      and hung up.
    */
    method AutoAnswerCall(id: string, sine: real -> real) returns (r: Result<seq<Codec.Byte>, CallError>)
      requires Valid()
      modifies this, toneGenerator
      ensures Valid()
      ensures id !in old(calls) ==> r == Ok([]) && calls == old(calls) && statistics == old(statistics)
      ensures id in old(calls) ==>
        && r == Ok(Codec.PcmToMulaw(ToneGen.ToneSamples(old(toneGenerator.config), sine)))
        && calls == old(calls) - {id}
        && statistics == old(statistics).(
             answeredCalls := old(statistics).answeredCalls + 1,
             activeCalls := SaturatingDecrement(old(statistics).activeCalls))
      ensures toneGenerator.config == old(toneGenerator.config)
      ensures id in old(calls) ==> !toneGenerator.isGenerating
      ensures id !in old(calls) ==> toneGenerator.isGenerating == old(toneGenerator.isGenerating)
    {
      if id !in calls {
        return Ok([]);
      }
      var answered := AnswerCall(id);
      r := StartTonePlayback(id, sine);
    }

    /**
      `handle_dtmf`: for a known call and a keypad character, the key's dual
      tone for 200 ms in μ-law (the bytes the call would carry); an unknown
      call or a character that is not a key is an error. Nothing changes.
    */
    method HandleDtmf(id: string, digit: char, sine: real -> real) returns (r: Result<seq<Codec.Byte>, CallError>)
      ensures id !in calls ==> r == Err(CallNotFound(id))
      ensures id in calls && digit !in ToneGen.DtmfKeys ==> r == Err(InvalidDtmfDigit(digit))
      ensures id in calls && digit in ToneGen.DtmfKeys ==>
        var f := ToneGen.DtmfFrequencies(digit).value;
        r == Ok(Codec.PcmToMulaw(ToneGen.DtmfSamples(toneGenerator.config, sine, f.0, f.1, DtmfDurationMs)))
    {
      if id !in calls {
        return Err(CallNotFound(id));
      }
      var tone := toneGenerator.GenerateDtmfTone(digit, DtmfDurationMs, sine);
      if tone.Err? {
        return Err(InvalidDtmfDigit(tone.error));
      }
      r := Ok(Codec.PcmToMulaw(tone.value));
    }

    /** `get_call_info`: the record of a known call, None for an unknown one. */
    function GetCallInfo(id: string): (r: Option<CallInfo>)
      reads this
      ensures r.Some? <==> id in calls
      ensures r.Some? ==> r.value == calls[id]
    {
      if id in calls then Some(calls[id]) else None
    }

    /**
      `cleanup_terminated_calls`: collects the ids of the Terminated entries in
      table order, then removes them; every other entry stays as it was.
    */
    method CleanupTerminatedCalls()
      modifies this
      ensures calls == WithoutTerminated(old(calls))
      ensures statistics == old(statistics)
      ensures old(Valid()) ==> Valid()
    {
      var toRemove: seq<string> := [];
      var pending := calls.Keys;
      while pending != {}
        invariant pending <= calls.Keys
        invariant forall id :: id in toRemove ==> id in calls && calls[id].status == Terminated
        invariant forall id :: id in calls && id !in pending && calls[id].status == Terminated ==> id in toRemove
        invariant forall id :: id in pending ==> id !in toRemove
        decreases pending
      {
        var id :| id in pending;
        if calls[id].status == Terminated {
          toRemove := toRemove + [id];
        }
        pending := pending - {id};
      }
      ghost var before := calls;
      var i := 0;
      while i < |toRemove|
        invariant 0 <= i <= |toRemove|
        invariant forall id :: id in calls <==> id in before && id !in toRemove[..i]
        invariant forall id :: id in calls ==> calls[id] == before[id]
        invariant statistics == old(statistics)
      {
        calls := calls - {toRemove[i]};
        i := i + 1;
      }
      if old(Valid()) {
        assert forall id :: id in before ==> id !in toRemove;
        assert calls == before;
      }
    }

    /**
      No operation ever marks a call Terminated, so on a valid table the
      clean-up finds nothing to remove.
    */
    lemma CleanupFindsNothing()
      requires Valid()
      ensures WithoutTerminated(calls) == calls
    {
    }
  }
}

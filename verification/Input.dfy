/**
 The demuxer front end (src/av/input.cpp): which packets count towards a pass, and how later passes of a
 looping input are shifted so that the timeline keeps increasing.

 INT64_MAX and INT64_MIN, the source's marks for "nothing seen yet", are None here.
 */
module Input {
  import opened Options
  import opened Products
  import opened Rescale

  datatype StreamInfo = StreamInfo(timeBase: TimeBase, sampleRate: int, defaultDuration: int)

  /** A packet as the demuxer reads it; `skip` holds the samples trimmed at its start and end. */
  datatype RawPacket = RawPacket(stream: int, pts: Option<int>, dts: Option<int>, duration: int, discard: bool,
                                 skip: Option<(nat, nat)>)

  /** What a packet presents, in ticks of its stream. */
  datatype Extent = Extent(start: int, end: int)

  function SampleBase(rate: int): TimeBase
    requires rate > 0
  {
    Rational(1, rate)
  }

  /** The extent Account considers; None if the packet is not presented at all. */
  function Presented(p: RawPacket, info: StreamInfo): Option<Extent> {
    if p.pts.None? || p.discard then None
    else
      var start := p.pts.value;
      var end := start + if p.duration > 0 then p.duration else info.defaultDuration;
      var trimmed := if p.skip.Some? && info.sampleRate > 0
        then Extent(start + ScaleQ(p.skip.value.0, SampleBase(info.sampleRate), info.timeBase),
                    end - ScaleQ(p.skip.value.1, SampleBase(info.sampleRate), info.timeBase))
        else Extent(start, end);
      if trimmed.end > trimmed.start then Some(trimmed) else None
  }

  /** `ticks` is `samples` at `rate`, to the nearest tick. */
  ghost predicate Lasts(ticks: int, samples: nat, rate: int, timeBase: TimeBase) {
    var tick := timeBase.num * rate;
    ticks >= 0 && -tick <= 2 * (ticks * tick - samples * timeBase.den) <= tick
  }

  lemma SkipLasts(samples: nat, rate: int, timeBase: TimeBase)
    requires rate > 0
    ensures Lasts(ScaleQ(samples, SampleBase(rate), timeBase), samples, rate, timeBase)
  {
    var n, d := samples * timeBase.den, timeBase.num * rate;
    Positive(timeBase.num, rate);
    NotNegative(samples, timeBase.den);
    RoundDivMonotone(0, n, d);
    assert ScaleQ(samples, SampleBase(rate), timeBase) == RoundDiv(n, d);
  }

  /**
   What a packet presents. Without a timestamp, or marked for discarding, nothing. Otherwise it lasts its duration, or
   the stream's default if it has none; the samples to skip at its start and at its end come off at that end,
   to the nearest tick; and if nothing is left, it presents nothing either.
   */
  lemma PresentedExtent(p: RawPacket, info: StreamInfo)
    ensures p.pts.None? || p.discard ==> Presented(p, info).None?
    ensures p.pts.Some? && !p.discard ==>
      var length := if p.duration > 0 then p.duration else info.defaultDuration;
      if p.skip.None? || info.sampleRate <= 0
      then Presented(p, info) == if length > 0 then Some(Extent(p.pts.value, p.pts.value + length)) else None
      else exists first: int, last: int ::
             && Lasts(first, p.skip.value.0, info.sampleRate, info.timeBase)
             && Lasts(last, p.skip.value.1, info.sampleRate, info.timeBase)
             && Presented(p, info) == if first + last < length
                                      then Some(Extent(p.pts.value + first, p.pts.value + length - last)) else None
  {
    if p.pts.Some? && !p.discard && p.skip.Some? && info.sampleRate > 0 {
      SkipLasts(p.skip.value.0, info.sampleRate, info.timeBase);
      SkipLasts(p.skip.value.1, info.sampleRate, info.timeBase);
    }
  }

  datatype Timeline = Timeline(firstPass: bool, offsetUs: int, passStart: Option<int>, passEnd: Option<int>)

  const FRESH := Timeline(true, 0, None, None)

  function MinOf(a: Option<int>, b: int): int {
    if a.Some? && a.value <= b then a.value else b
  }

  function MaxOf(a: Option<int>, b: int): int {
    if a.Some? && a.value >= b then a.value else b
  }

  /** How one packet extends the pass. */
  function Extend(t: Timeline, p: RawPacket, info: StreamInfo): Timeline {
    match Presented(p, info)
    case None => t
    case Some(e) =>
      t.(passStart := if t.firstPass then Some(MinOf(t.passStart, ToMicros(e.start, info.timeBase))) else t.passStart,
         passEnd := Some(MaxOf(t.passEnd, ToMicros(e.end, info.timeBase))))
  }

  function Shift(ts: Option<int>, offset: int): Option<int> {
    if ts.None? then None else Some(ts.value + offset)
  }

  /** A timestamp comes back later by `ticks`; an unset one stays unset. */
  predicate Later(was: Option<int>, now: Option<int>, ticks: int) {
    (was.None? <==> now.None?) && (was.Some? ==> now.value == was.value + ticks)
  }

  predicate CanRestart(t: Timeline) {
    t.passEnd.Some? && t.passStart.Some? && t.passEnd.value > t.passStart.value
  }

  function Restarted(t: Timeline): Timeline
    requires CanRestart(t)
  {
    Timeline(false, t.offsetUs + (t.passEnd.value - t.passStart.value), t.passStart, None)
  }

  // ---------------------------------------------------------------- the demuxer object

  /** An AVPacket: its timestamps are shifted in place. */
  class Packet {
    const raw: RawPacket
    var pts: Option<int>
    var dts: Option<int>

    constructor (raw: RawPacket)
      ensures this.raw == raw && pts == raw.pts && dts == raw.dts
    {
      this.raw := raw;
      pts, dts := raw.pts, raw.dts;
    }
  }

  datatype Track = Track(selected: bool, offset: int)

  /** What av_read_frame can return. */
  datatype ReadResult = Again | EndOfFile | Failed(atEnd: bool) | Got(packet: RawPacket)

  datatype Error = ReadError

  class MediaInput {
    const streams: seq<StreamInfo>
    const source: seq<ReadResult> // what the demuxer will deliver, call by call
    var position: nat
    var stop: bool // a stop was requested
    var tracks: seq<Track>
    var firstPass: bool
    var offsetUs: int
    var passStart: Option<int>
    var passEnd: Option<int>

    function State(): Timeline
      reads this
    {
      Timeline(firstPass, offsetUs, passStart, passEnd)
    }

    /** Every selected track is shifted by the timeline offset, rounded to its own time base. */
    ghost predicate Valid()
      reads this
    {
      && |tracks| == |streams| && position <= |source|
      && forall i :: 0 <= i < |tracks| && tracks[i].selected ==>
           tracks[i].offset == FromMicros(offsetUs, streams[i].timeBase)
    }

    constructor (streams: seq<StreamInfo>, selected: seq<bool>, source: seq<ReadResult>)
      requires |selected| == |streams|
      ensures Valid() && State() == FRESH && this.streams == streams && this.source == source && position == 0
      ensures forall i :: 0 <= i < |streams| ==> tracks[i] == Track(selected[i], 0)
    {
      this.streams, this.source, position, stop := streams, source, 0, false;
      tracks := seq(|streams|, i requires 0 <= i < |selected| => Track(selected[i], 0));
      firstPass, offsetUs, passStart, passEnd := true, 0, None, None;
      new;
      forall i | 0 <= i < |streams| ensures FromMicros(0, streams[i].timeBase) == 0 { }
    }

    method Account(packet: Packet, index: nat)
      requires Valid() && index < |streams| && tracks[index].selected
      requires packet.pts == packet.raw.pts && packet.dts == packet.raw.dts
      modifies this`passStart, this`passEnd, packet`pts, packet`dts
      ensures Valid() && State() == Extend(old(State()), packet.raw, streams[index])
      ensures packet.pts == Shift(packet.raw.pts, tracks[index].offset)
      ensures packet.dts == Shift(packet.raw.dts, tracks[index].offset)
      ensures Later(packet.raw.pts, packet.pts, FromMicros(offsetUs, streams[index].timeBase))
      ensures Later(packet.raw.dts, packet.dts, FromMicros(offsetUs, streams[index].timeBase))
    {
      var raw, info := packet.raw, streams[index];
      if raw.pts.Some? && !raw.discard {
        var duration := if raw.duration > 0 then raw.duration else info.defaultDuration;
        var start := raw.pts.value;
        var end := raw.pts.value + duration;
        if raw.skip.Some? && info.sampleRate > 0 {
          start := start + ScaleQ(raw.skip.value.0, SampleBase(info.sampleRate), info.timeBase);
          end := end - ScaleQ(raw.skip.value.1, SampleBase(info.sampleRate), info.timeBase);
        }
        if end > start {
          if firstPass { passStart := Some(MinOf(passStart, ToMicros(start, info.timeBase))); }
          passEnd := Some(MaxOf(passEnd, ToMicros(end, info.timeBase)));
        }
      }
      var offset := tracks[index].offset;
      if offset != 0 {
        if packet.pts.Some? { packet.pts := Some(packet.pts.value + offset); }
        if packet.dts.Some? { packet.dts := Some(packet.dts.value + offset); }
      }
    }

    /** What call number i of av_read_frame gives: the end of the file once everything was delivered. */
    function ResultAt(i: nat): ReadResult {
      if i < |source| then source[i] else EndOfFile
    }

    /** A stop can be requested at any time, and is never withdrawn. */
    method StopRequested() returns (r: bool)
      modifies this`stop
      ensures r == stop && (old(stop) ==> stop)
    {
      var requested: bool := *;
      stop := stop || requested;
      r := stop;
    }

    /** Read may go on after this: the demuxer had nothing yet, or a packet of no selected stream. */
    ghost predicate PassedOver(r: ReadResult)
      reads this`tracks
    {
      || r.Again?
      || (r.Got? && !exists i :: 0 <= i < |tracks| && tracks[i].selected && r.packet.stream == i)
    }

    predicate Skipped(r: ReadResult)
      reads this`tracks
    {
      match r
      case Again => true
      case Got(p) => p.stream < 0 || p.stream >= |tracks| || !tracks[p.stream].selected
      case _ => false
    }

    /** The first result from `i` on that Read does not pass over. */
    ghost function NextResult(i: nat): nat
      requires i <= |source|
      reads this`tracks
      ensures i <= NextResult(i) <= |source|
      decreases |source| - i
    {
      if i < |source| && Skipped(source[i]) then NextResult(i + 1) else i
    }

    /**
     The next packet of a selected stream. None at the end of the input, also if that shows as a failed read, or
     when stopped: nothing else makes it give up, and any other failed read is an error.
     */
    method Read() returns (packet: Packet?, error: Option<Error>)
      requires Valid()
      modifies this`position, this`stop, this`passStart, this`passEnd
      ensures Valid() && old(position) <= position
      ensures packet != null ==>
        var k := old(NextResult(position));
        && fresh(packet) && error.None? && k < |source| && source[k].Got? && position == k + 1
        && packet.raw == source[k].packet && !Skipped(source[k])
        && State() == Extend(old(State()), packet.raw, streams[packet.raw.stream])
        && packet.pts == Shift(packet.raw.pts, tracks[packet.raw.stream].offset)
        && packet.dts == Shift(packet.raw.dts, tracks[packet.raw.stream].offset)
        && Later(packet.raw.pts, packet.pts, FromMicros(offsetUs, streams[packet.raw.stream].timeBase))
        && Later(packet.raw.dts, packet.dts, FromMicros(offsetUs, streams[packet.raw.stream].timeBase))
      ensures packet != null ==>
        && 0 <= packet.raw.stream < |tracks| && tracks[packet.raw.stream].selected
        && forall i :: old(position) <= i < position - 1 ==> PassedOver(source[i])
      ensures packet == null ==> State() == old(State())
      ensures error.Some? ==> packet == null && !stop && ResultAt(old(NextResult(position))) == Failed(false)
      ensures packet == null && error.None? && !stop ==>
        var r := ResultAt(old(NextResult(position))); r.EndOfFile? || r == Failed(true)
    {
      packet, error := null, None;
      var stopped := StopRequested();
      while !stopped
        invariant Valid() && State() == old(State()) && old(position) <= position && error.None? && packet == null
        invariant NextResult(position) == old(NextResult(position)) && (stopped ==> stop)
        invariant position <= |source| && forall i :: old(position) <= i < position ==> PassedOver(source[i])
        decreases |source| - position, !stopped
      {
        if position == |source| { return; }
        var result := source[position];
        position := position + 1;
        match result {
          case Again =>
          case EndOfFile => return;
          case Failed(atEnd) =>
            stopped := StopRequested();
            if stopped || atEnd { return; }
            error := Some(ReadError);
            return;
          case Got(raw) =>
            if raw.stream >= 0 && raw.stream < |tracks| && tracks[raw.stream].selected {
              packet := new Packet(raw);
              Account(packet, raw.stream);
              return;
            }
        }
        stopped := StopRequested();
      }
    }

    /** Seek back for another pass; `seekable` is the demuxer's answer. */
    method Restart(seekable: bool) returns (ok: bool)
      requires Valid()
      modifies this`offsetUs, this`firstPass, this`passEnd, this`tracks
      ensures Valid()
      ensures ok <==> old(CanRestart(State())) && seekable
      ensures ok ==> State() == Restarted(old(State()))
      ensures !ok ==> State() == old(State()) && tracks == old(tracks)
      ensures forall i :: 0 <= i < |tracks| ==> tracks[i].selected == old(tracks)[i].selected
    {
      if passEnd.None? || passStart.None? || passEnd.value <= passStart.value { return false; }
      if !seekable { return false; }

      offsetUs := offsetUs + (passEnd.value - passStart.value);
      firstPass := false;
      passEnd := None;

      var i := 0;
      while i < |tracks|
        invariant 0 <= i <= |tracks| == |old(tracks)|
        invariant forall j :: 0 <= j < |tracks| ==> tracks[j].selected == old(tracks)[j].selected
        invariant forall j :: 0 <= j < i && tracks[j].selected ==>
          tracks[j].offset == FromMicros(offsetUs, streams[j].timeBase)
        invariant State() == Restarted(old(State()))
      {
        if tracks[i].selected {
          tracks := tracks[i := tracks[i].(offset := FromMicros(offsetUs, streams[i].timeBase))];
        }
        i := i + 1;
      }
      ok := true;
    }
  }
}

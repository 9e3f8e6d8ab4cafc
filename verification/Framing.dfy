/**
 Commands between client and agent: a response travels as its length, eight bytes little-endian,
 followed by its bytes. The pipe may cut what is written and read into pieces as it likes, and may
 fail.
 */
module Framing {
  import opened Prelude

  newtype byte = x: int | 0 <= x < 256

  const PIPE_BUFFER_SIZE: nat := 65536
  const WORD: nat := 8
  const MAX_LENGTH: nat := 0x1_0000_0000_0000_0000

  // ----- The frame

  /** The `width` low bytes of a number, the lowest first. */
  function ToLe(n: nat, width: nat): (s: seq<byte>)
    ensures |s| == width
  {
    if width == 0 then [] else [(n % 256) as byte] + ToLe(n / 256, width - 1)
  }

  function FromLe(s: seq<byte>): nat {
    if s == [] then 0 else s[0] as nat + 256 * FromLe(s[1..])
  }

  function Power(width: nat): nat { if width == 0 then 1 else 256 * Power(width - 1) }

  lemma {:induction false} LeRoundTrip(n: nat, width: nat)
    requires n < Power(width)
    ensures FromLe(ToLe(n, width)) == n
  {
    if width > 0 {
      LeRoundTrip(n / 256, width - 1);
      assert ToLe(n, width)[1..] == ToLe(n / 256, width - 1);
    }
  }

  lemma SplitLow(low: nat, rest: nat)
    requires low < 256
    ensures (low + 256 * rest) % 256 == low && (low + 256 * rest) / 256 == rest
  {
  }

  lemma {:induction false} LeOnto(s: seq<byte>)
    ensures FromLe(s) < Power(|s|) && ToLe(FromLe(s), |s|) == s
  {
    if s != [] {
      LeOnto(s[1..]);
      LeOntoNext(s, FromLe(s[1..]));
    }
  }

  lemma LeOntoNext(s: seq<byte>, rest: nat)
    requires s != [] && FromLe(s) == s[0] as nat + 256 * rest
    requires rest < Power(|s| - 1) && ToLe(rest, |s| - 1) == s[1..]
    ensures FromLe(s) < Power(|s|) && ToLe(FromLe(s), |s|) == s
  {
    SplitLow(s[0] as nat, rest);
    hide FromLe;
    assert ToLe(FromLe(s), |s|) == [s[0]] + s[1..];
  }

  lemma PowerOfWord()
    ensures Power(WORD) == MAX_LENGTH
  {
    assert Power(4) == 0x1_0000_0000;
    assert Power(8) == 256 * (256 * (256 * (256 * Power(4))));
  }

  function Frame(data: seq<byte>): seq<byte> { ToLe(|data|, WORD) + data }

  /** A number without its `i` lowest bytes. */
  function Shifted(n: nat, i: nat): nat { if i == 0 then n else Shifted(n / 256, i - 1) }

  lemma {:induction false} LeDigit(n: nat, width: nat, i: nat)
    requires i < width
    ensures ToLe(n, width)[i] as nat == Shifted(n, i) % 256
  {
    if i > 0 {
      LeDigit(n / 256, width - 1, i - 1);
    }
  }

  /** A frame byte by byte: the length's eight bytes, the lowest first, and then the data. */
  lemma FrameInBytes(data: seq<byte>, i: nat)
    requires i < |Frame(data)|
    ensures |Frame(data)| == 8 + |data|
    ensures Frame(data)[i] as nat == if i < 8 then Shifted(|data|, i) % 256 else data[i - 8] as nat
  {
    if i < WORD {
      LeDigit(|data|, WORD, i);
    }
  }

  /** The first frame of a stream, and what follows it. */
  function Unframe(stream: seq<byte>): Option<(seq<byte>, seq<byte>)> {
    if |stream| < WORD then None
    else
      var length := FromLe(stream[..WORD]);
      if |stream| - WORD < length then None
      else Some((stream[WORD..WORD + length], stream[WORD + length..]))
  }

  /** A frame is found again whatever follows it, and what follows it is left as it was. */
  lemma UnframeFrame(data: seq<byte>, rest: seq<byte>)
    requires |data| < MAX_LENGTH
    ensures Unframe(Frame(data) + rest) == Some((data, rest))
  {
    PowerOfWord();
    LeRoundTrip(|data|, WORD);
    var stream := Frame(data) + rest;
    assert stream[..WORD] == ToLe(|data|, WORD);
    assert stream[WORD..WORD + |data|] == data;
    assert stream[WORD + |data|..] == rest;
  }

  /** Whatever a stream yields was framed there. */
  lemma FrameUnframe(stream: seq<byte>)
    requires Unframe(stream).Some?
    ensures var (data, rest) := Unframe(stream).value; |data| < MAX_LENGTH && stream == Frame(data) + rest
  {
    PowerOfWord();
    LeOnto(stream[..WORD]);
    var (data, rest) := Unframe(stream).value;
    assert stream == stream[..WORD] + data + rest;
  }

  function FrameAll(messages: seq<seq<byte>>): seq<byte> {
    if messages == [] then [] else Frame(messages[0]) + FrameAll(messages[1..])
  }

  function UnframeAll(stream: seq<byte>): (seq<seq<byte>>, seq<byte>) {
    match Unframe(stream)
    case None => ([], stream)
    case Some((data, rest)) =>
      var (messages, end) := UnframeAll(rest);
      ([data] + messages, end)
  }

  /** A stream of frames falls apart into the messages it was made of, and no others. */
  lemma {:induction false} UnframeAllFrameAll(messages: seq<seq<byte>>)
    requires forall m :: m in messages ==> |m| < MAX_LENGTH
    ensures UnframeAll(FrameAll(messages)) == (messages, [])
  {
    if messages != [] {
      UnframeAllFrameAll(messages[1..]);
      UnframeFrame(messages[0], FrameAll(messages[1..]));
      assert messages == [messages[0]] + messages[1..];
    }
  }

  // ----- The pipe

  /** What is in the pipe. A sound pipe takes every write whole, and a read of a sound pipe with
      something in it yields at least a byte. */
  class Pipe {
    const sound: bool
    var contents: seq<byte>
    ghost var writes: seq<nat>  // the size of every write

    constructor (sound: bool)
      ensures this.sound == sound && contents == [] && writes == []
    {
      this.sound := sound;
      contents, writes := [], [];
    }

    method WriteFile(chunk: seq<byte>) returns (ok: bool, written: nat)
      modifies this
      ensures written <= |chunk| && contents == old(contents) + chunk[..written]
      ensures writes == old(writes) + [|chunk|]
      ensures sound ==> ok && written == |chunk|
    {
      ok, written := true, |chunk|;
      if !sound {
        ok := *;
        written :| 0 <= written <= |chunk|;
      }
      contents, writes := contents + chunk[..written], writes + [|chunk|];
    }

    /** Reads some bytes into `output` from `offset` on. */
    method ReadFile(output: array<byte>, offset: nat) returns (ok: bool, n: nat)
      requires offset < output.Length
      modifies this, output
      ensures offset + n <= output.Length && n <= |old(contents)|
      ensures output[..] == old(output[..offset]) + old(contents)[..n] + old(output[offset..])[n..]
      ensures contents == old(contents)[n..] && writes == old(writes)
      ensures !ok ==> n == 0
      ensures sound ==> ok && (contents != old(contents) || old(contents) == []) && (n == 0 <==> old(contents) == [])
    {
      var most := if |contents| < output.Length - offset then |contents| else output.Length - offset;
      n :| 0 <= n <= most && (sound && most > 0 ==> n > 0);
      ok := true;
      if !sound && n == 0 {
        ok := *;
      }
      for i := 0 to n
        invariant contents == old(contents) && writes == old(writes)
        invariant forall k :: 0 <= k < i ==> output[offset + k] == contents[k]
        invariant forall k :: 0 <= k < offset || offset + i <= k < output.Length ==> output[k] == old(output[k])
      {
        output[offset + i] := contents[i];
      }
      contents := contents[n..];
    }
  }

  // ----- The agent writes

  /** True only if everything is in the pipe; a part of it is in any case. */
  method WritePipeBytes(pipe: Pipe, data: seq<byte>) returns (ok: bool)
    modifies pipe
    ensures exists k :: 0 <= k <= |data| && pipe.contents == old(pipe.contents) + data[..k]
    ensures ok ==> pipe.contents == old(pipe.contents) + data
    ensures pipe.sound ==> ok
    ensures old(pipe.writes) <= pipe.writes
    ensures forall i :: |old(pipe.writes)| <= i < |pipe.writes| ==> 0 < pipe.writes[i] <= 65536
    ensures forall i :: |old(pipe.writes)| <= i < |pipe.writes| - 1 ==> pipe.writes[i] == 65536
  {
    var at := 0;
    assert pipe.contents == old(pipe.contents) + data[..0];
    while at < |data|
      invariant at <= |data|
      invariant pipe.contents == old(pipe.contents) + data[..at]
      invariant old(pipe.writes) <= pipe.writes
      invariant forall i :: |old(pipe.writes)| <= i < |pipe.writes| ==>
                  0 < pipe.writes[i] <= 65536 && (at < |data| || i < |pipe.writes| - 1 ==> pipe.writes[i] == 65536)
    {
      var end := if at + PIPE_BUFFER_SIZE < |data| then at + PIPE_BUFFER_SIZE else |data|;
      var chunk := data[at..end];
      var written, wrote;
      wrote, written := pipe.WriteFile(chunk);
      assert data[..at] + chunk[..written] == data[..at + written];
      if !wrote || written != |chunk| {
        return false;
      }
      at := end;
    }
    assert data[..|data|] == data;
    ok := true;
  }

  /** The frame of `data`, or a part of it if the pipe fails. */
  method WriteCommandResponse(pipe: Pipe, data: seq<byte>) returns (ok: bool)
    requires |data| < MAX_LENGTH
    modifies pipe
    ensures exists k :: 0 <= k <= |Frame(data)| && pipe.contents == old(pipe.contents) + Frame(data)[..k]
    ensures ok ==> pipe.contents == old(pipe.contents) + Frame(data)
    ensures pipe.sound ==> ok
  {
    var length := ToLe(|data|, WORD);
    ok := WritePipeBytes(pipe, length);
    if !ok {
      ghost var k :| 0 <= k <= |length| && pipe.contents == old(pipe.contents) + length[..k];
      assert Frame(data)[..k] == length[..k];
      return;
    }
    ok := WritePipeBytes(pipe, data);
    ghost var k :| 0 <= k <= |data| && pipe.contents == old(pipe.contents) + length + data[..k];
    assert Frame(data)[..WORD + k] == length + data[..k];
  }

  // ----- The client reads

  /** Fills the buffer with the next bytes of the pipe, however they arrive. On a sound pipe it fails
      exactly if there are too few. */
  method ReadCommandBytes(pipe: Pipe, output: array<byte>) returns (r: Result<(), string>)
    modifies pipe, output
    ensures exists k :: 0 <= k <= |old(pipe.contents)| && k <= output.Length && pipe.contents == old(pipe.contents)[k..]
    ensures r.Ok? ==> output.Length <= |old(pipe.contents)|
                      && output[..] == old(pipe.contents)[..output.Length]
                      && pipe.contents == old(pipe.contents)[output.Length..]
    ensures pipe.sound ==> (r.Ok? <==> output.Length <= |old(pipe.contents)|)
  {
    var offset := 0;
    while offset < output.Length
      invariant offset <= output.Length && offset <= |old(pipe.contents)|
      invariant output[..offset] == old(pipe.contents)[..offset]
      invariant pipe.contents == old(pipe.contents)[offset..]
    {
      var ok, n := pipe.ReadFile(output, offset);
      if !ok {
        return Err("failed to read response");
      }
      if n == 0 {
        return Err("command response ended early");
      }
      assert output[..offset + n] == old(pipe.contents)[..offset] + old(pipe.contents)[offset..][..n];
      offset := offset + n;
    }
    assert output[..offset] == output[..];
    r := Ok(());
  }

  /** What is read is the first frame in the pipe, and exactly that frame is consumed. On a sound pipe
      reading fails exactly if no whole frame is there. */
  method ReadCommandResponse(pipe: Pipe) returns (r: Result<seq<byte>, string>)
    modifies pipe
    ensures exists k :: 0 <= k <= |old(pipe.contents)| && pipe.contents == old(pipe.contents)[k..]
    ensures r.Ok? ==> Unframe(old(pipe.contents)) == Some((r.value, pipe.contents))
    ensures pipe.sound ==> (r.Ok? <==> Unframe(old(pipe.contents)).Some?)
  {
    ghost var stream := pipe.contents;
    var lengthBytes := new byte[WORD];
    var read := ReadCommandBytes(pipe, lengthBytes);
    if read.Err? {
      return Err(read.error);
    }
    assert lengthBytes[..] == stream[..WORD] && pipe.contents == stream[WORD..];
    var response := new byte[FromLe(lengthBytes[..])];
    read := ReadCommandBytes(pipe, response);
    ghost var k :| 0 <= k <= |stream[WORD..]| && pipe.contents == stream[WORD..][k..];
    assert pipe.contents == stream[WORD + k..];
    if read.Err? {
      return Err(read.error);
    }
    assert response[..] == stream[WORD..WORD + response.Length];
    assert pipe.contents == stream[WORD + response.Length..];
    r := Ok(response[..]);
  }

  /** The whole way: over a sound pipe, the client rebuilds what the agent framed, however the pipe
      cuts it, and leaves a following frame intact. */
  method Exchange(pipe: Pipe, data: seq<byte>, next: seq<byte>) returns (r: Result<seq<byte>, string>)
    requires pipe.sound && pipe.contents == [] && |data| < MAX_LENGTH && |next| < MAX_LENGTH
    modifies pipe
    ensures r == Ok(data) && pipe.contents == Frame(next)
  {
    var _ := WriteCommandResponse(pipe, data);
    var _ := WriteCommandResponse(pipe, next);
    assert pipe.contents == Frame(data) + Frame(next);
    UnframeFrame(data, Frame(next));
    r := ReadCommandResponse(pipe);
  }

  /** Over any pipe: if both ends report success, the client has what the agent framed. */
  method ExchangeOverAnyPipe(pipe: Pipe, data: seq<byte>) returns (sent: bool, r: Result<seq<byte>, string>)
    requires pipe.contents == [] && |data| < MAX_LENGTH
    modifies pipe
    ensures r.Ok? ==> r.value == data && pipe.contents == []
  {
    sent := WriteCommandResponse(pipe, data);
    ghost var k :| 0 <= k <= |Frame(data)| && pipe.contents == Frame(data)[..k];
    r := ReadCommandResponse(pipe);
    if r.Ok? {
      CutFrameYieldsNothing(data, k);
      assert Frame(data)[..k] == Frame(data) + [];
      UnframeFrame(data, []);
    }
  }

  /** A frame that was cut short yields no message. */
  lemma CutFrameYieldsNothing(data: seq<byte>, k: nat)
    requires |data| < MAX_LENGTH && k <= |Frame(data)|
    ensures Unframe(Frame(data)[..k]).Some? <==> k == |Frame(data)|
  {
    var cut := Frame(data)[..k];
    if k >= WORD {
      assert cut[..WORD] == ToLe(|data|, WORD);
      PowerOfWord();
      LeRoundTrip(|data|, WORD);
    }
  }
}

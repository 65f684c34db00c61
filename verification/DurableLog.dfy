/** Append-only files of one record per line: what an append can leave behind and what reopening reads. */
module DurableLog {
  import opened Results

  /** How a record is written as the text of one line, and read back. */
  datatype Codec<!R> = Codec(enc: R -> string, dec: string -> Option<R>)

  /** The records of a file's complete lines, and whether an incomplete line follows them. */
  datatype File<!R> = File(codec: Codec<R>, lines: seq<R>, torn: bool)

  /** What one append did to the file. Only Synced is acknowledged to the writer. */
  datatype Fate = Synced | Lost | Cut | Kept

  function Append<R>(f: File<R>, r: R, fate: Fate): File<R> {
    match fate
    case Lost => f
    case Cut => f.(torn := true)
    case _ => f.(lines := f.lines + [r])
  }

  // ----- bytes -----

  ghost predicate Lawful<R(!new)>(c: Codec<R>) {
    forall r: R :: Bare(c.enc(r)) && c.dec(c.enc(r)) == Some(r)
  }

  /** A line's text: no line break inside and no carriage return at its end. */
  predicate Bare(s: string) {
    s != "" && '\n' !in s && s[|s| - 1] != '\r'
  }

  function Text<R>(c: Codec<R>, rs: seq<R>): string {
    if rs == [] then "" else c.enc(rs[0]) + "\n" + Text(c, rs[1..])
  }

  function TrimReturn(s: string): string {
    if s != "" && s[|s| - 1] == '\r' then s[..|s| - 1] else s
  }

  function FirstBreak(s: string): (k: nat)
    ensures k <= |s| && '\n' !in s[..k] && (k < |s| ==> s[k] == '\n')
  {
    if s == "" || s[0] == '\n' then 0
    else assert s[..1 + FirstBreak(s[1..])] == [s[0]] + s[1..][..FirstBreak(s[1..])];
         1 + FirstBreak(s[1..])
  }

  /** The records of a file's text, or None when startup must refuse it: an incomplete final line,
    * a line that does not decode, or one that with its line break exceeds the reader's limit. */
  function Decoded<R>(c: Codec<R>, text: string, max: nat): Option<seq<R>> {
    if text == "" then Some([])
    else
      var k := FirstBreak(text);
      if k == |text| || k + 1 > max then None
      else
        match c.dec(TrimReturn(text[..k]))
        case None => None
        case Some(r) =>
          match Decoded(c, text[k + 1..], max)
          case None => None
          case Some(rs) => Some([r] + rs)
  }

  // ----- reading line by line -----

  ghost function After<R>(done: seq<R>, more: Option<seq<R>>): Option<seq<R>> {
    match more
    case None => None
    case Some(rs) => Some(done + rs)
  }

  lemma AllRead<R>(c: Codec<R>, done: seq<R>, max: nat)
    ensures After(done, Decoded(c, "", max)) == Some(done)
  {
    assert done + [] == done;
  }

  lemma ReadLine<R>(c: Codec<R>, done: seq<R>, rest: string, max: nat)
    requires rest != ""
    ensures var k := FirstBreak(rest);
            if k == |rest| || k + 1 > max then After(done, Decoded(c, rest, max)) == None
            else match c.dec(TrimReturn(rest[..k]))
                 case None => After(done, Decoded(c, rest, max)) == None
                 case Some(r) => After(done, Decoded(c, rest, max)) == After(done + [r], Decoded(c, rest[k + 1..], max))
  {
    var k := FirstBreak(rest);
    if k < |rest| && k + 1 <= max && c.dec(TrimReturn(rest[..k])).Some? {
      var r := c.dec(TrimReturn(rest[..k])).value;
      var more := Decoded(c, rest[k + 1..], max);
      if more.Some? {
        assert done + ([r] + more.value) == (done + [r]) + more.value;
      }
    }
  }

  /** r's line, with its line break, is within the reader's limit. */
  predicate Short<R>(c: Codec<R>, r: R, max: nat) {
    |c.enc(r)| + 1 <= max
  }

  predicate Fits<R>(c: Codec<R>, rs: seq<R>, max: nat) {
    forall i :: 0 <= i < |rs| ==> Short(c, rs[i], max)
  }

  /** bytes are the file f: its complete lines, then a fragment without a line break if it is torn. */
  ghost predicate Holds<R>(bytes: string, f: File<R>) {
    exists rest: string :: bytes == Text(f.codec, f.lines) + rest && '\n' !in rest && (rest != "" <==> f.torn)
  }

  lemma FirstBreakAt(line: string, rest: string)
    requires '\n' !in line
    ensures FirstBreak(line + "\n" + rest) == |line|
  {
    var s := line + "\n" + rest;
    var k := FirstBreak(s);
    assert s[|line|] == '\n';
    assert forall i :: 0 <= i < |line| ==> s[i] == line[i];
    assert forall i :: 0 <= i < k ==> s[i] in s[..k];
  }

  lemma DecodedCons<R>(c: Codec<R>, line: string, rest: string, max: nat)
    requires '\n' !in line
    ensures Decoded(c, line + "\n" + rest, max) ==
            if |line| + 1 > max then None
            else match c.dec(TrimReturn(line))
                 case None => None
                 case Some(r) =>
                   match Decoded(c, rest, max)
                   case None => None
                   case Some(rs) => Some([r] + rs)
  {
    FirstBreakAt(line, rest);
    var s := line + "\n" + rest;
    assert s[..|line|] == line && s[|line| + 1..] == rest;
  }

  /** Reopening reads back exactly the complete lines, and refuses exactly a torn file or an overlong line. */
  lemma {:induction false} ReopenReads<R(!new)>(c: Codec<R>, rs: seq<R>, rest: string, max: nat)
    requires Lawful(c) && '\n' !in rest
    ensures Decoded(c, Text(c, rs) + rest, max) == if rest == "" && Fits(c, rs, max) then Some(rs) else None
  {
    if rs == [] {
      assert Text(c, rs) + rest == rest;
    } else {
      var line := c.enc(rs[0]);
      ReopenReads(c, rs[1..], rest, max);
      DecodedCons(c, line, Text(c, rs[1..]) + rest, max);
      assert Text(c, rs) + rest == line + "\n" + (Text(c, rs[1..]) + rest);
      assert Bare(line) && c.dec(line) == Some(rs[0]);
      assert rs == [rs[0]] + rs[1..];
      FitsCons(c, rs, max);
    }
  }

  lemma FitsCons<R>(c: Codec<R>, rs: seq<R>, max: nat)
    requires rs != []
    ensures Fits(c, rs, max) <==> Short(c, rs[0], max) && Fits(c, rs[1..], max)
  {
    if Short(c, rs[0], max) && Fits(c, rs[1..], max) {
      forall i | 0 <= i < |rs| ensures Short(c, rs[i], max) {
        assert i > 0 ==> rs[i] == rs[1..][i - 1];
      }
    }
    assert forall i :: 0 <= i < |rs[1..]| ==> rs[1..][i] == rs[i + 1];
  }

  lemma FitsSnoc<R>(c: Codec<R>, rs: seq<R>, r: R, max: nat)
    ensures Fits(c, rs + [r], max) <==> Fits(c, rs, max) && Short(c, r, max)
  {
    if Fits(c, rs + [r], max) {
      assert (rs + [r])[|rs|] == r;
      forall i | 0 <= i < |rs| ensures Short(c, rs[i], max) {
        assert (rs + [r])[i] == rs[i];
      }
    }
  }

  lemma ReopenHolds<R(!new)>(bytes: string, f: File<R>, max: nat)
    requires Lawful(f.codec) && Holds(bytes, f)
    ensures Decoded(f.codec, bytes, max) == if !f.torn && Fits(f.codec, f.lines, max) then Some(f.lines) else None
  {
    var rest :| bytes == Text(f.codec, f.lines) + rest && '\n' !in rest && (rest != "" <==> f.torn);
    ReopenReads(f.codec, f.lines, rest, max);
  }

  lemma {:induction false} TextSnoc<R>(c: Codec<R>, rs: seq<R>, r: R)
    ensures Text(c, rs + [r]) == Text(c, rs) + c.enc(r) + "\n"
  {
    if rs == [] {
      assert rs + [r] == [r] && [r][1..] == [];
    } else {
      TextSnoc(c, rs[1..], r);
      assert (rs + [r])[1..] == rs[1..] + [r];
    }
  }

  // ----- the file -----

  /** What the operating system did with one append: wrote and synced it, stopped after some bytes, or
    * wrote it all but could not sync it. */
  datatype Io = Durable | Stopped(kept: nat) | Unsynced

  function KeptBytes(io: Io, n: nat): (k: nat)
    ensures k <= n
  {
    if io.Stopped? && io.kept < n then io.kept else n
  }

  function FateOf(io: Io, n: nat): Fate {
    if io.Durable? then Synced
    else if KeptBytes(io, n) == n then Kept
    else if KeptBytes(io, n) == 0 then Lost
    else Cut
  }

  /** What becomes of r's line, and of the file's bytes, when r is appended. */
  function LineFate<R>(c: Codec<R>, r: R, io: Io): Fate {
    FateOf(io, |c.enc(r)| + 1)
  }

  function Appended<R>(c: Codec<R>, bytes: string, r: R, io: Io): string {
    var line := c.enc(r) + "\n";
    bytes + line[..KeptBytes(io, |line|)]
  }

  class Disk {
    var bytes: string

    constructor (bytes: string)
      ensures this.bytes == bytes
    {
      this.bytes := bytes;
    }

    method Write(data: string, io: Io) returns (ok: bool)
      modifies this
      ensures bytes == old(bytes) + data[..KeptBytes(io, |data|)]
      ensures ok <==> io.Durable?
    {
      bytes := bytes + data[..KeptBytes(io, |data|)];
      ok := io.Durable?;
    }
  }

  /** Whatever happens to an append, the file is again complete lines and at most one fragment. */
  lemma AppendHolds<R(!new)>(bytes: string, f: File<R>, r: R, io: Io)
    requires Lawful(f.codec) && Holds(bytes, f) && !f.torn
    ensures Holds(Appended(f.codec, bytes, r, io), Append(f, r, LineFate(f.codec, r, io)))
  {
    var c := f.codec;
    var line := c.enc(r) + "\n";
    var k := KeptBytes(io, |line|);
    var after := Append(f, r, FateOf(io, |line|));
    var rest := if k == |line| then "" else line[..k];
    assert Bare(c.enc(r));
    TextSnoc(c, f.lines, r);
    assert line[..|line|] == line;
    assert bytes == Text(c, f.lines);
    assert bytes + line[..k] == Text(c, after.lines) + rest;
    assert '\n' !in rest;
  }
}

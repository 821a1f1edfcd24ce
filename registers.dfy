/** The SM5703 as the driver sees it over I2C: a register file that answers
    16-bit word reads, any of which may fail, and the ordered trace of the
    word writes the driver issues. */
module Registers {
  import opened CInt

  datatype Option<T> = None | Some(value: T)

  /** The chip's registers. The header that gives their 8-bit addresses is
      not part of this model, so each named register is its own constructor
      (distinct by construction); `Rce(i)` is `SM5703_REG_RCE0 + i`,
      `TableEntry(k)` is `SM5703_REG_TABLE_START + k`, and `Literal(a)` is a
      register the source addresses by a bare number (the soft-reset
      register `0x90`). */
  datatype Reg =
    | DeviceId | Cntl | IntFg | IntFgMask | Status
    | Soc | Ocv | Voltage | Current | Temperature
    | VAlarm | SocAlarm | FgOpStatus | TopoffSoc | ParamCtrl
    | VitPeriod | MixRate | MixInitBlank | Dtcd | Rs
    | RsMixFactor | RsMax | RsMin | VoltCal | CurrCal | IocvMan
    | Rce(index: nat)
    | TableEntry(offset: nat)
    | Literal(address: nat)

  /** One word write as it goes out on the bus. */
  datatype Write = Write(reg: Reg, word: Word16)

  /** A negative Linux error number, as an I2C transfer returns it. */
  type Errno = e: int | -4095 <= e <= -1 witness -1

  /** What the chip answers: a word for each readable register. A read of a
      register in `failing` (or one the chip does not answer) fails with
      `errno`. */
  datatype RegFile = RegFile(words: map<Reg, Word16>, failing: set<Reg>, errno: Errno)
  {
    /** `sm5703_fg_i2c_read_word`: the word read, or the negative error
        code of the failed transfer. */
    function Read(r: Reg): (ret: int)
      ensures -4095 <= ret < 0x1_0000
      ensures ret >= 0 <==> r in words && r !in failing
      ensures ret >= 0 ==> ret == words[r]
    {
      if r in words && r !in failing then words[r] else errno
    }
  }

  /** The bus as the driver uses it: reads are answered by `file`, and every
      write is appended to `trace`. The chip's own response to a write (its
      measurement registers, its state after a reset) is not modelled, so a
      write leaves `file` as it is. */
  class Chip {
    var file: RegFile
    var trace: seq<Write>

    constructor (file: RegFile)
      ensures this.file == file && trace == []
    {
      this.file := file;
      trace := [];
    }

    /** `sm5703_fg_i2c_write_word`: the value is converted to `uint16_t`
        and sent. Its status is never acted upon by the driver beyond a log
        line, so it is not returned. */
    method WriteWord(r: Reg, value: int)
      modifies this`trace
      ensures trace == old(trace) + [Write(r, U16(value))]
    {
      trace := trace + [Write(r, U16(value))];
    }
  }

  /** The word the last write to `r` in `ws` leaves there, if any write
      targets `r`: the register's contents after the writes, as far as the
      writes decide them. */
  function Final(ws: seq<Write>, r: Reg): Option<Word16>
  {
    FinalBefore(ws, r, |ws|)
  }

  /** The word the last write to `r` among the first `n` writes leaves
      there, if any of them targets `r`. */
  function FinalBefore(ws: seq<Write>, r: Reg, n: nat): Option<Word16>
    requires n <= |ws|
  {
    if n == 0 then None
    else if ws[n - 1].reg == r then Some(ws[n - 1].word)
    else FinalBefore(ws, r, n - 1)
  }

  lemma {:induction false} BeforeUntouched(ws: seq<Write>, r: Reg, n: nat)
    requires n <= |ws|
    requires forall k | 0 <= k < n :: ws[k].reg != r
    ensures FinalBefore(ws, r, n) == None
  {
    if n > 0 {
      BeforeUntouched(ws, r, n - 1);
    }
  }

  /** Two traces that agree on their first `n` writes agree on what those
      writes leave in `r`. */
  lemma {:induction false} BeforeAgree(x: seq<Write>, y: seq<Write>, r: Reg, n: nat)
    requires n <= |x| && n <= |y|
    requires forall k | 0 <= k < n :: x[k] == y[k]
    ensures FinalBefore(x, r, n) == FinalBefore(y, r, n)
  {
    if n > 0 {
      BeforeAgree(x, y, r, n - 1);
    }
  }

  lemma {:induction false} BeforeAppend(a: seq<Write>, b: seq<Write>, r: Reg, m: nat)
    requires m <= |b|
    ensures FinalBefore(a + b, r, |a| + m) ==
      if FinalBefore(b, r, m).Some? then FinalBefore(b, r, m) else FinalBefore(a, r, |a|)
  {
    if m == 0 {
      BeforeAgree(a + b, a, r, |a|);
    } else {
      assert (a + b)[|a| + m - 1] == b[m - 1];
      BeforeAppend(a, b, r, m - 1);
    }
  }

  /** One more write decides its own register and leaves the others as
      they were. */
  lemma FinalLast(ws: seq<Write>, w: Write, r: Reg)
    ensures Final(ws + [w], r) == if w.reg == r then Some(w.word) else Final(ws, r)
  {
    BeforeAppend(ws, [w], r, 1);
  }

  /** Writes not aimed at `r` do not decide its contents. */
  lemma FinalUntouched(ws: seq<Write>, r: Reg)
    requires forall k | 0 <= k < |ws| :: ws[k].reg != r
    ensures Final(ws, r) == None
  {
    BeforeUntouched(ws, r, |ws|);
  }

  /** After `a` then `b`, a register holds what `b` last wrote to it, and
      what `a` left there when `b` does not touch it. */
  lemma FinalAppend(a: seq<Write>, b: seq<Write>, r: Reg)
    ensures Final(a + b, r) == if Final(b, r).Some? then Final(b, r) else Final(a, r)
  {
    BeforeAppend(a, b, r, |b|);
  }

  /** A register `b` writes holds what `b` last wrote, whatever came
      before. */
  lemma FinalLaterWins(a: seq<Write>, b: seq<Write>, r: Reg)
    requires Final(b, r).Some?
    ensures Final(a + b, r) == Final(b, r)
  {
    FinalAppend(a, b, r);
  }

  /** A register `b` does not write keeps what `a` left there. */
  lemma FinalEarlierStays(a: seq<Write>, b: seq<Write>, r: Reg)
    requires Final(b, r) == None
    ensures Final(a + b, r) == Final(a, r)
  {
    FinalAppend(a, b, r);
  }

  /** Three pieces appended to a trace one after another extend it by
      their concatenation. */
  lemma AppendThree<T>(t: seq<T>, a: seq<T>, b: seq<T>, c: seq<T>)
    ensures t + a + b + c == t + (a + b + c)
  {
  }
}

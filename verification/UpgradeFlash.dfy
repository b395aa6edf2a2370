/** Burning an image: mark the flag partition, write the kernel partition, set the flag; stopped at any moment. */
module UpgradeFlash {
  import opened CInt

  /** "12345Doorbell002", and the mark of an upgrade under way. */
  const MAGIC: seq<Byte> := [0x31, 0x32, 0x33, 0x34, 0x35, 0x44, 0x6f, 0x6f, 0x72, 0x62, 0x65, 0x6c, 0x6c, 0x30, 0x30, 0x32]
  const ERASED: seq<Byte> := [1, 1, 1, 1, 1, 1, 1, 1, 1, 1, 1, 1, 1, 1, 1, 1]

  /** One write as the device does it: whether the partition opens, what it holds meanwhile and at the end, the result. */
  datatype Device = Device(opens: bool, during: seq<seq<Byte>>, final: seq<Byte>, code: int)

  /** Writing a partition: the result, and everything the partition holds from the first change on. */
  function Written(data: seq<Byte>, d: Device): (int, seq<seq<Byte>>) {
    if data == [] then (-1, [])
    else if !d.opens then (-2, [])
    else (if d.code < -1 then -3 else 0, d.during + [d.final])
  }

  /** A write that is not reported as failed has written the data. */
  predicate Honest(d: Device, data: seq<Byte>) {
    d.opens && d.code >= -1 ==> d.final == data
  }

  /** At any moment the partition holds what it held before, or the data. */
  predicate Atomic(d: Device, before: seq<Byte>, data: seq<Byte>) {
    (d.final == before || d.final == data) && forall i :: 0 <= i < |d.during| ==> d.during[i] == before || d.during[i] == data
  }

  datatype Flash = Flash(kernel: seq<Byte>, flag: seq<Byte>)

  function FlagHistory(f: Flash, contents: seq<seq<Byte>>): seq<Flash> {
    seq(|contents|, i requires 0 <= i < |contents| => f.(flag := contents[i]))
  }

  function KernelHistory(f: Flash, contents: seq<seq<Byte>>): seq<Flash> {
    seq(|contents|, i requires 0 <= i < |contents| => f.(kernel := contents[i]))
  }

  function LastOf(f: Flash, history: seq<Flash>): Flash {
    if history == [] then f else history[|history| - 1]
  }

  /** The three writes: the result, and the flash at every moment from the first change on. */
  function Burned(f: Flash, image: seq<Byte>, erase: Device, burn: Device, setting: Device): (int, seq<Flash>) {
    if image == [] then (-1, [])
    else
      var e := Written(ERASED, erase);
      var one := FlagHistory(f, e.1);
      var g := LastOf(f, one);
      if e.0 != 0 then (-2, one)
      else
        var b := Written(image, burn);
        var two := KernelHistory(g, b.1);
        var h := LastOf(g, two);
        if b.0 != 0 then (-3, one + two)
        else
          var s := Written(MAGIC, setting);
          (if s.0 != 0 then -4 else 0, one + two + FlagHistory(h, s.1))
  }

  /** A flag that says complete stands before a kernel that is: the old one or the new one. */
  predicate Safe(f: Flash, before: seq<Byte>, image: seq<Byte>) {
    f.flag == MAGIC ==> f.kernel == before || f.kernel == image
  }

  predicate AllSafe(history: seq<Flash>, before: seq<Byte>, image: seq<Byte>) {
    forall i :: 0 <= i < |history| ==> Safe(history[i], before, image)
  }

  /** Wherever the power fails, the flag vouches only for a complete image; and a result of 0 means that the flag vouches
      for the new one. */
  lemma BurnIsCrashSafe(f: Flash, image: seq<Byte>, erase: Device, burn: Device, setting: Device)
    requires Honest(erase, ERASED) && Honest(burn, image) && Honest(setting, MAGIC)
    requires Atomic(erase, f.flag, ERASED) && Atomic(setting, ERASED, MAGIC)
    ensures var r := Burned(f, image, erase, burn, setting);
            && AllSafe(r.1, f.kernel, image)
            && (r.0 == 0 ==> LastOf(f, r.1) == Flash(image, MAGIC))
  {
  }

  predicate Succeeds(d: Device) {
    d.opens && d.code >= -1
  }

  /** The result tells the first step that failed, and the steps after it change nothing. */
  lemma ResultTellsStep(f: Flash, image: seq<Byte>, erase: Device, burn: Device, setting: Device)
    requires image != []
    ensures var r, g := Burned(f, image, erase, burn, setting), LastOf(f, Burned(f, image, erase, burn, setting).1);
            && (r.0 == 0 <==> Succeeds(erase) && Succeeds(burn) && Succeeds(setting))
            && (r.0 == -2 <==> !Succeeds(erase)) && (r.0 == -3 <==> Succeeds(erase) && !Succeeds(burn))
            && (r.0 == -4 <==> Succeeds(erase) && Succeeds(burn) && !Succeeds(setting))
            && (r.0 == -2 ==> g.kernel == f.kernel) && (r.0 == -3 ==> g.flag == erase.final)
  {
  }

  /** What a partition holds from the first change on. */
  function Contents(d: Device): seq<seq<Byte>> {
    d.during + [d.final]
  }

  predicate Whole(contents: seq<seq<Byte>>, before: seq<Byte>, image: seq<Byte>) {
    forall i :: 0 <= i < |contents| ==> contents[i] == before || contents[i] == image
  }

  /** When all three writes are reported as done, every moment is safe if and only if the image was really burned, or
      nothing was, and the flag was really erased, unless the burning goes through complete kernels only. */
  lemma SafeExactlyWhen(f: Flash, image: seq<Byte>, erase: Device, burn: Device, setting: Device)
    requires image != [] && f.flag == MAGIC && Succeeds(erase) && Succeeds(burn) && Succeeds(setting)
    requires Atomic(erase, MAGIC, ERASED) && setting.final == MAGIC
    ensures AllSafe(Burned(f, image, erase, burn, setting).1, f.kernel, image) <==>
              && (burn.final == f.kernel || burn.final == image)
              && (erase.final == ERASED || Whole(Contents(burn), f.kernel, image))
  {
    var r := Burned(f, image, erase, burn, setting).1;
    var n, m := |Contents(erase)|, |Contents(burn)|;
    assert MAGIC[0] != ERASED[0];
    forall i | 0 <= i < m
      ensures r[n + i] == Flash(Contents(burn)[i], erase.final)
    {
    }
    assert r[|r| - 1] == Flash(burn.final, MAGIC);
    if AllSafe(r, f.kernel, image) {
      assert Safe(r[|r| - 1], f.kernel, image);
      forall i | 0 <= i < m && erase.final == MAGIC
        ensures Contents(burn)[i] == f.kernel || Contents(burn)[i] == image
      {
        assert Safe(r[n + i], f.kernel, image);
      }
    }
  }

  /** A result of -1 counts as done. If it can mean that the erasure did not happen, there are moments that vouch for a
      broken kernel. */
  lemma UnnoticedFailureBreaks(kernel: seq<Byte>, image: seq<Byte>, broken: seq<Byte>)
    requires image != [] && broken != kernel && broken != image
    ensures var erase, burn, setting := Device(true, [], MAGIC, -1), Device(true, [broken], image, 0), Device(true, [], MAGIC, 0);
            !AllSafe(Burned(Flash(kernel, MAGIC), image, erase, burn, setting).1, kernel, image)
  {
    var erase, burn := Device(true, [], MAGIC, -1), Device(true, [broken], image, 0);
    SafeExactlyWhen(Flash(kernel, MAGIC), image, erase, burn, Device(true, [], MAGIC, 0));
    assert Contents(burn)[0] == broken;
  }

  // The object.

  class Partitions {
    var kernel: seq<Byte>
    var flag: seq<Byte>

    ghost function View(): Flash
      reads this
    {
      Flash(kernel, flag)
    }

    constructor (f: Flash)
      ensures View() == f
    {
      kernel, flag := f.kernel, f.flag;
    }

    method WriteFlag(data: seq<Byte>, d: Device) returns (result: int, history: seq<Flash>)
      modifies this`flag
      ensures result == Written(data, d).0 && history == FlagHistory(old(View()), Written(data, d).1)
      ensures View() == LastOf(old(View()), history)
    {
      history := [];
      if data == [] {
        return -1, history;
      }
      if !d.opens {
        return -2, history;
      }
      var i := 0;
      while i < |d.during|
        invariant 0 <= i <= |d.during| && kernel == old(kernel)
        invariant history == FlagHistory(old(View()), d.during[..i])
      {
        flag := d.during[i];
        history := history + [Flash(kernel, flag)];
        i := i + 1;
      }
      flag := d.final;
      history := history + [Flash(kernel, flag)];
      result := if d.code < -1 then -3 else 0;
    }

    method WriteKernel(data: seq<Byte>, d: Device) returns (result: int, history: seq<Flash>)
      modifies this`kernel
      ensures result == Written(data, d).0 && history == KernelHistory(old(View()), Written(data, d).1)
      ensures View() == LastOf(old(View()), history)
    {
      history := [];
      if data == [] {
        return -1, history;
      }
      if !d.opens {
        return -2, history;
      }
      var i := 0;
      while i < |d.during|
        invariant 0 <= i <= |d.during| && flag == old(flag)
        invariant history == KernelHistory(old(View()), d.during[..i])
      {
        kernel := d.during[i];
        history := history + [Flash(kernel, flag)];
        i := i + 1;
      }
      kernel := d.final;
      history := history + [Flash(kernel, flag)];
      result := if d.code < -1 then -3 else 0;
    }

    /** Erase the flag, burn the image, set the flag; stop at the first failure. */
    method KernelOta(image: seq<Byte>, erase: Device, burn: Device, setting: Device)
      returns (result: int, history: seq<Flash>)
      modifies this
      ensures (result, history) == Burned(old(View()), image, erase, burn, setting)
      ensures View() == LastOf(old(View()), history)
    {
      if image == [] {
        return -1, [];
      }
      var r, more;
      r, history := WriteFlag(ERASED, erase);
      if r != 0 {
        return -2, history;
      }
      r, more := WriteKernel(image, burn);
      history := history + more;
      if r != 0 {
        return -3, history;
      }
      r, more := WriteFlag(MAGIC, setting);
      history := history + more;
      result := if r != 0 then -4 else 0;
    }
  }
}

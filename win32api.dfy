/** The value structs and the one pure helper of the Win32 binding, and the
    monitor queries the binding declares, given here as an oracle. */
module Win32Api {
  import opened Wrappers

  /** C# `int`, `short` and `uint`. */
  type Int32 = x: int | -0x8000_0000 <= x < 0x8000_0000
  type Int16 = x: int | -0x8000 <= x < 0x8000
  type UInt32 = x: int | 0 <= x < 0x1_0000_0000

  /** POINT: the constructor stores both coordinates as given. */
  datatype Point = Point(x: int, y: int)

  /** RECT: edges of a rectangle in screen coordinates. */
  datatype Rect = Rect(left: int, top: int, right: int, bottom: int)

  function Width(r: Rect): int { r.right - r.left }
  function Height(r: Rect): int { r.bottom - r.top }

  /** `dword & 0xffff`: on a two's-complement word the mask keeps the
      residue modulo 2^16, which Dafny's Euclidean `%` gives for negative
      words too. */
  function LowBits(dword: Int32): (r: int)
    ensures 0 <= r < 0x1_0000
    ensures (r - dword) % 0x1_0000 == 0
  {
    dword % 0x1_0000
  }

  /** The LOWORD macro: the low 16 bits of the word, reinterpreted by the
      `(short)` cast as a signed value. */
  function GetLoWord(dword: Int32): (r: Int16)
    ensures (r - dword) % 0x1_0000 == 0
    ensures 0 <= r <==> LowBits(dword) <= 0x7fff
    ensures 0 <= r ==> r == LowBits(dword)
    ensures r < 0 ==> r == LowBits(dword) - 0x1_0000
  {
    var lo := LowBits(dword);
    assert dword == (dword / 0x1_0000) * 0x1_0000 + lo;
    if lo < 0x8000 then lo else lo - 0x1_0000
  }

  /** Only the low 16 bits matter: masking first changes nothing. */
  lemma GetLoWordOfLowBits(dword: Int32)
    ensures GetLoWord(LowBits(dword)) == GetLoWord(dword)
  {
  }

  /** Only the low 16 bits matter: adding a multiple of 2^16 to the word
      (within the 32-bit range) changes nothing. */
  lemma GetLoWordPeriodic(dword: Int32, k: int)
    requires -0x8000_0000 <= dword + k * 0x1_0000 < 0x8000_0000
    ensures GetLoWord(dword + k * 0x1_0000) == GetLoWord(dword)
  {
    var e: Int32 := dword + k * 0x1_0000;
    assert LowBits(e) == LowBits(dword) by {
      ModShift(dword, k);
    }
  }

  lemma {:induction false} ModShift(d: int, k: int)
    ensures (d + k * 0x1_0000) % 0x1_0000 == d % 0x1_0000
    decreases if k < 0 then -k else k
  {
    if k > 0 {
      ModShift(d, k - 1);
      assert d + k * 0x1_0000 == (d + (k - 1) * 0x1_0000) + 0x1_0000;
    } else if k < 0 {
      ModShift(d, k + 1);
      assert d + k * 0x1_0000 == (d + (k + 1) * 0x1_0000) - 0x1_0000;
    }
  }

  /** A wParam of 96 or 144 (with any high word) yields 96 or 144; a low
      word at or above 0x8000 yields a negative value. */
  lemma GetLoWordExamples()
    ensures GetLoWord(96) == 96 && GetLoWord(144) == 144
    ensures GetLoWord(0x0090_0090) == 144
    ensures GetLoWord(0x8000) == -0x8000 && GetLoWord(-1) == -1
  {
  }

  /** Handle to a monitor; the binding's null handle is `None`. */
  type MonitorHandle = int

  /** The status code and the two out-parameters of the per-monitor DPI
      query (status 0 is S_OK). */
  datatype DpiQuery = DpiQuery(status: int, dpiX: UInt32, dpiY: UInt32)

  /** The platform's monitor layout as seen by the binding's queries:
      the monitor of the window (defaulting to the primary one, so never
      null), the monitor with the largest intersection with a rectangle,
      the monitor containing a point (both with the null default), and the
      DPI query on a monitor. */
  datatype Screen = Screen(
    monitorFromWindow: Rect -> MonitorHandle,
    monitorFromRect: Rect -> Option<MonitorHandle>,
    monitorFromPoint: Point -> Option<MonitorHandle>,
    getDpiForMonitor: MonitorHandle -> DpiQuery)
}

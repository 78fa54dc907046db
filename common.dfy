/** Small value types shared by the music moods and the action tracker. */
module Common {

  /** A value that may be absent: a playback handle the audio service did not
      produce, a limit break that is not being cast, a missing sheet row. */
  datatype Option<+T> = None | Some(value: T)

  /** The elements an optional value contributes to a queue: none or one. */
  function Elements<T>(o: Option<T>): (s: seq<T>)
    ensures |s| <= 1
    ensures o.Some? <==> |s| == 1
    ensures o.Some? ==> s[0] == o.value
  {
    if o.Some? then [o.value] else []
  }

  /** A .NET Stopwatch reduced to what the moods observe: whether it runs and
      how many whole milliseconds it has measured since it was last zeroed. */
  datatype Stopwatch = Stopwatch(running: bool, elapsedMs: nat) {

    /** Zero the measured time and (re)start measuring. */
    function Restart(): Stopwatch {
      Stopwatch(true, 0)
    }

    /** Stop measuring and zero the measured time. */
    function Reset(): Stopwatch {
      Stopwatch(false, 0)
    }

    /** Let `dt` milliseconds of wall-clock time pass; a stopped watch does not count them. */
    function Advance(dt: nat): (w: Stopwatch)
      ensures w.running == running
      ensures running ==> w.elapsedMs == elapsedMs + dt
      ensures !running ==> w == this
    {
      if running then Stopwatch(true, elapsedMs + dt) else this
    }
  }

  const Stopped: Stopwatch := Stopwatch(false, 0)

  /** `Math.Max(x, 0)`: clamps a duration so that nothing waits a negative time. */
  function Max0(x: int): (r: nat)
    ensures r >= x
    ensures r == x || r == 0
  {
    if x < 0 then 0 else x
  }

  /** Clamping is monotone: a smaller duration never clamps to a larger one. */
  lemma Max0Monotone(x: int, y: int)
    requires x <= y
    ensures Max0(x) <= Max0(y)
  {
  }

  /** Euclidean remainder is determined by any quotient-remainder decomposition. */
  lemma ModUnique(a: int, m: int, q: int, r: int)
    requires m > 0 && 0 <= r < m && a == q * m + r
    ensures a % m == r
  {
    var d := q - a / m;
    assert d * m == a % m - r;
    assert d > 0 ==> d * m >= m;
    assert d < 0 ==> d * m <= -m;
  }
}

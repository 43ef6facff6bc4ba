/** What the run classes share about checkpoint files: the checkpoint directory,
    the epoch pattern `<stem>([0-9]*)<tail>` and the scan for the latest epoch
    (`find_latest_epoch` in `src/sucrose/project/scenario.py` and
    `src/sucrose/project/project.py`, and the methods of the same name in the
    legacy projects), and the interval gate of `save_state_dict`. */
module Checkpoints {
  import opened Wrappers
  import opened Text
  import opened Values

  /** A checkpoint directory: whether it exists, and the record stored in each file.
      `os.listdir` is the key set of `files`, in no particular order. */
  datatype CkptDir = CkptDir(present: bool, files: map<string, Value>)

  /** `os.makedirs(dir, exist_ok=True)` followed by saving `v` as file `name`, for a
      name that lies directly inside the directory. */
  function Write(dir: CkptDir, name: string, v: Value): (d: CkptDir)
    ensures d.present
    ensures d.files.Keys == dir.files.Keys + {name}
    ensures d.files[name] == v
    ensures forall n :: n in dir.files && n != name ==> d.files[n] == dir.files[n]
  {
    CkptDir(true, dir.files[name := v])
  }

  // ---------------------------------------------------------------------------
  // The epoch pattern

  /** One pattern character against one name character: the unescaped `.` of the
      pattern is the regex wildcard (anything but a newline); every other character
      stands for itself. */
  predicate CharMatches(p: char, c: char) {
    if p == '.' then c != '\n' else p == c
  }

  /** The literal pattern text `pat` matches a prefix of `s`. */
  predicate MatchesPrefix(pat: string, s: string) {
    |pat| <= |s| && forall k :: 0 <= k < |pat| ==> CharMatches(pat[k], s[k])
  }

  lemma MatchesItself(pat: string, s: string)
    ensures MatchesPrefix(pat, pat + s)
  {
    forall k | 0 <= k < |pat| ensures CharMatches(pat[k], (pat + s)[k]) {
      assert (pat + s)[k] == pat[k];
    }
  }

  /** Length of the leading run of ASCII digits of `s`: where the greedy
      `[0-9]*` stops. */
  function DigitRun(s: string): (n: nat)
    ensures n <= |s|
    ensures forall k :: 0 <= k < n ==> IsDigit(s[k])
    ensures n < |s| ==> !IsDigit(s[n])
  {
    if s != [] && IsDigit(s[0]) then 1 + DigitRun(s[1..]) else 0
  }

  /** The group length the regex engine settles on: starting from `j` digits it gives
      back one digit at a time until the tail matches what follows, or -1 when no
      length down to 0 works. */
  function Backtrack(tail: string, rest: string, j: int): (k: int)
    requires -1 <= j <= |rest|
    ensures -1 <= k <= j
    ensures k >= 0 ==> MatchesPrefix(tail, rest[k..])
    ensures forall i :: k < i <= j ==> !MatchesPrefix(tail, rest[i..])
    decreases j + 1
  {
    if j < 0 then -1
    else if MatchesPrefix(tail, rest[j..]) then j
    else Backtrack(tail, rest, j - 1)
  }

  /** How a file name fares against the pattern: no match, a match whose digit
      group is empty (`int("")` then raises ValueError), or the epoch it names. */
  datatype Match = NoMatch | EmptyGroup | Epoch(epoch: nat)

  /** `re.match(stem + "([0-9]*)" + tail, name)` followed by `int(res.group(1))`.
      The match is anchored at the start of the name only. */
  function Classify(stem: string, tail: string, name: string): (m: Match)
    ensures !MatchesPrefix(stem, name) ==> m == NoMatch
  {
    if !MatchesPrefix(stem, name) then NoMatch
    else
      var rest := name[|stem|..];
      var j := Backtrack(tail, rest, DigitRun(rest));
      if j < 0 then NoMatch
      else if j == 0 then EmptyGroup
      else Epoch(DigitsValue(rest[..j]))
  }

  lemma DigitRunOf(d: string, t: string)
    requires AllDigits(d)
    requires t == [] || !IsDigit(t[0])
    ensures DigitRun(d + t) == |d|
    decreases |d|
  {
    if d != [] {
      assert (d + t)[0] == d[0] && (d + t)[1..] == d[1..] + t;
      DigitRunOf(d[1..], t);
    } else {
      assert d + t == t;
    }
  }

  /** A name built as stem, decimal epoch, tail is read back as that epoch, provided
      the tail does not itself start with a digit. */
  lemma {:induction false} MatchOwnName(stem: string, tail: string, e: nat)
    requires tail == [] || !IsDigit(tail[0])
    ensures Classify(stem, tail, stem + DecimalString(e) + tail) == Epoch(e)
  {
    var d := DecimalString(e);
    var name := stem + d + tail;
    assert name == stem + (d + tail);
    MatchesItself(stem, d + tail);
    var rest := name[|stem|..];
    assert rest == d + tail;
    DigitRunOf(d, tail);
    assert rest[|d|..] == tail;
    MatchesItself(tail, []);
    assert tail + [] == tail;
    assert rest[..|d|] == d;
    DecimalRoundTrip(e);
  }

  // ---------------------------------------------------------------------------
  // find_latest_epoch

  /** The reference for the scan: `e` is 0 or the epoch of some name, and no name
      that matches names a larger epoch. */
  predicate IsLatest(names: set<string>, stem: string, tail: string, e: nat) {
    && (e == 0 || exists n :: n in names && Classify(stem, tail, n) == Epoch(e))
    && forall n :: n in names && Classify(stem, tail, n).Epoch? ==> Classify(stem, tail, n).epoch <= e
  }

  /** The reference for `find_latest_epoch` on a directory: 0 when it does not
      exist, otherwise the latest epoch of its listing. */
  predicate LatestOnDisk(dir: CkptDir, stem: string, tail: string, e: nat) {
    if dir.present then IsLatest(dir.files.Keys, stem, tail, e) else e == 0
  }

  /** At most one number is the latest epoch of a listing. */
  lemma IsLatestUnique(names: set<string>, stem: string, tail: string, a: nat, b: nat)
    requires IsLatest(names, stem, tail, a) && IsLatest(names, stem, tail, b)
    ensures a == b
  {
    if a != 0 {
      var n :| n in names && Classify(stem, tail, n) == Epoch(a);
      assert a <= b;
    }
    if b != 0 {
      var n :| n in names && Classify(stem, tail, n) == Epoch(b);
      assert b <= a;
    }
  }

  /** At most one number is the latest epoch on disk. */
  lemma LatestOnDiskUnique(dir: CkptDir, stem: string, tail: string, a: nat, b: nat)
    requires LatestOnDisk(dir, stem, tail, a) && LatestOnDisk(dir, stem, tail, b)
    ensures a == b
  {
    if dir.present {
      IsLatestUnique(dir.files.Keys, stem, tail, a, b);
    }
  }

  /** Every listing has a latest epoch: 0 when no name matches. */
  lemma {:induction false} IsLatestExists(names: set<string>, stem: string, tail: string)
    ensures exists e: nat :: IsLatest(names, stem, tail, e)
    decreases names
  {
    if names == {} {
      assert IsLatest(names, stem, tail, 0);
    } else {
      var n :| n in names;
      var others := names - {n};
      IsLatestExists(others, stem, tail);
      var e: nat :| IsLatest(others, stem, tail, e);
      var m := Classify(stem, tail, n);
      if m.Epoch? && m.epoch > e {
        assert IsLatest(names, stem, tail, m.epoch);
      } else {
        assert names == others + {n};
        assert IsLatest(names, stem, tail, e);
      }
    }
  }

  /** The latest epoch on disk, as a value: what `find_latest_epoch` returns when it
      does not raise. */
  ghost function Latest(dir: CkptDir, stem: string, tail: string): (e: nat)
    ensures LatestOnDisk(dir, stem, tail, e)
  {
    if !dir.present then 0
    else
      IsLatestExists(dir.files.Keys, stem, tail);
      var e: nat :| IsLatest(dir.files.Keys, stem, tail, e); e
  }

  /** `int("")` raised while scanning the given name. */
  datatype ScanError = EmptyEpoch(name: string)

  /** `find_latest_epoch(ckpts_dir, pattern)`: 0 for a missing directory; otherwise
      the largest epoch among the matching names, or 0 if none matches. A matching
      name with an empty digit group makes the scan raise, whatever the order of the
      listing. */
  method FindLatestEpoch(dir: CkptDir, stem: string, tail: string) returns (r: Result<nat, ScanError>)
    ensures r.Failure? <==> dir.present && exists n :: n in dir.files && Classify(stem, tail, n) == EmptyGroup
    ensures r.Failure? ==> r.error.name in dir.files && Classify(stem, tail, r.error.name) == EmptyGroup
    ensures r.Success? ==> r.value == Latest(dir, stem, tail)
  {
    if !dir.present {
      return Success(0);
    }
    var names := dir.files.Keys;
    var maxEpoch: nat := 0;
    while names != {}
      invariant names <= dir.files.Keys
      invariant forall n :: n in dir.files && n !in names ==> Classify(stem, tail, n) != EmptyGroup
      invariant IsLatest(dir.files.Keys - names, stem, tail, maxEpoch)
      decreases names
    {
      var name :| name in names;
      var m := Classify(stem, tail, name);
      if m.EmptyGroup? {
        return Failure(EmptyEpoch(name));
      }
      if m.Epoch? && m.epoch > maxEpoch {
        maxEpoch := m.epoch;
      }
      names := names - {name};
    }
    assert dir.files.Keys - names == dir.files.Keys;
    LatestOnDiskUnique(dir, stem, tail, maxEpoch, Latest(dir, stem, tail));
    return Success(maxEpoch);
  }

  /** A listing with checkpoints for epochs `a <= b` and a file that does not start
      with the stem: the latest epoch is `b`, whatever the unrelated file is called. */
  lemma LatestOfListing(stem: string, tail: string, a: nat, b: nat, other: string)
    requires tail == [] || !IsDigit(tail[0])
    requires a <= b && !MatchesPrefix(stem, other)
    ensures IsLatest({stem + DecimalString(a) + tail, stem + DecimalString(b) + tail, other}, stem, tail, b)
  {
    MatchOwnName(stem, tail, a);
    MatchOwnName(stem, tail, b);
  }

  // ---------------------------------------------------------------------------
  // The save gate

  /** The two counters of a run that `save_state_dict` changes: the pending count
      (`_local_epoch`) and the epoch of the last checkpoint (`LAST_EPOCH`). */
  datatype Counters = Counters(pending: int, lastEpoch: int)

  /** The pending count of one `save_state_dict(interval)` call: it goes up by one,
      and when that reaches the interval it is reset and the call saves. */
  function PendingGate(pending: int, interval: int): (int, bool) {
    if pending + 1 < interval then (pending + 1, false) else (0, true)
  }

  /** One `save_state_dict(interval)` call of a run that keeps `LAST_EPOCH`: the
      pending count moves as `PendingGate` says, and a call that saves advances the
      epoch by the interval. The flag says whether a file is written. */
  function SaveGate(c: Counters, interval: int): (Counters, bool) {
    var (pending, saved) := PendingGate(c.pending, interval);
    (Counters(pending, if saved then c.lastEpoch + interval else c.lastEpoch), saved)
  }

  /** `k` consecutive calls with the same interval: the counters afterwards and how
      many of the calls wrote a file. */
  function SaveRun(c: Counters, interval: int, k: nat): (Counters, nat) {
    if k == 0 then (c, 0)
    else
      var (mid, saves) := SaveRun(c, interval, k - 1);
      var (next, saved) := SaveGate(mid, interval);
      (next, if saved then saves + 1 else saves)
  }

  /** After `q * interval + r` calls from an empty pending count, with
      `0 <= r < interval`: `q` files written, `r` pending, the epoch advanced by
      `q * interval`. */
  lemma {:induction false} SaveRunCounts(start: int, interval: int, q: nat, r: nat)
    requires 0 <= r < interval
    ensures SaveRun(Counters(0, start), interval, q * interval + r) == (Counters(r, start + q * interval), q)
    decreases q, r
  {
    if r > 0 {
      SaveRunCounts(start, interval, q, r - 1);
    } else if q > 0 {
      assert (q - 1) * interval + (interval - 1) == q * interval - 1;
      SaveRunCounts(start, interval, q - 1, interval - 1);
      assert start + (q - 1) * interval + interval == start + q * interval;
    }
  }

  /** From an empty pending count, `k` calls with a positive interval write
      `k / interval` files, leave `k % interval` pending, and advance the epoch by
      `interval` for each file written. */
  lemma SaveRunFromZero(start: int, interval: int, k: nat)
    requires interval >= 1
    ensures SaveRun(Counters(0, start), interval, k) ==
      (Counters(k % interval, start + (k / interval) * interval), k / interval)
  {
    var q, r := k / interval, k % interval;
    assert k == q * interval + r;
    SaveRunCounts(start, interval, q, r);
  }

  /** Three calls with interval 3 perform exactly one save, on the third call. */
  lemma ThreeCallsOneSave(start: int)
    ensures SaveRun(Counters(0, start), 3, 2) == (Counters(2, start), 0)
    ensures SaveRun(Counters(0, start), 3, 3) == (Counters(0, start + 3), 1)
  {
    SaveRunFromZero(start, 3, 2);
    SaveRunFromZero(start, 3, 3);
  }
}

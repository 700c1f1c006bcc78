/**
 * Vocabulary shared by the BOM manager, the MRP calculator and the
 * production planner: optional values, the closed set of material roles,
 * calendar periods with their chronological key, the list operations the
 * planning tables rely on (sorted distinct periods and the Python/pandas
 * prefix `xs[:n]` / `head(n)`), inventory rows with their first-row lookup,
 * and the flattening of per-material tables into one (material, period) table.
 */
module Common {

  /** Material identifiers are the strings found in the BOM and plan tables. */
  type Id = string

  datatype Option<T> = None | Some(value: T)

  /** The role of a material in the bill of materials. */
  datatype MaterialType = Finished | SemiFinished | Raw | Unknown

  /** The description shown for a material without one ("unknown"). */
  const UnknownDescription: string := "未知"

  /** Calendar months; the planning tables only hold real calendar months. */
  type Month = m: int | 1 <= m <= 12 witness 1

  /** A planning period: one calendar month of one year. */
  datatype Period = Period(year: int, month: Month)

  /** The chronological key year*12+month that the source sorts periods by. */
  function Key(p: Period): int
  {
    p.year * 12 + p.month
  }

  lemma KeyInjective(p: Period, q: Period)
    ensures Key(p) == Key(q) ==> p == q
  {
    if p.year < q.year {
      assert p.year * 12 + 12 <= q.year * 12;
    } else if q.year < p.year {
      assert q.year * 12 + 12 <= p.year * 12;
    }
  }

  /** The chronological key orders periods like the (year, month) pair does. */
  lemma KeyIsLexicographic(p: Period, q: Period)
    ensures Key(p) < Key(q) <==> (p.year < q.year || (p.year == q.year && p.month < q.month))
  {
    if p.year < q.year {
      assert p.year * 12 + 12 <= q.year * 12;
    } else if q.year < p.year {
      assert q.year * 12 + 12 <= p.year * 12;
    }
  }

  function GetOr<K, V>(m: map<K, V>, k: K, default: V): V
  {
    if k in m then m[k] else default
  }

  /**
   * `{**defaults, **given}`: every given entry wins, every default the
   * caller did not give survives, and nothing else appears.
   */
  function Merge<V>(defaults: map<string, V>, given: map<string, V>): (r: map<string, V>)
    ensures r.Keys == defaults.Keys + given.Keys
    ensures forall k :: k in given ==> r[k] == given[k]
    ensures forall k :: k in defaults && k !in given ==> r[k] == defaults[k]
  {
    defaults + given
  }

  predicate IsEarliest(p: Period, s: set<Period>)
  {
    p in s && forall q :: q in s ==> Key(p) <= Key(q)
  }

  lemma EarliestExists(s: set<Period>)
    requires s != {}
    ensures exists p :: IsEarliest(p, s)
  {
    var x :| x in s;
    if s != {x} {
      EarliestExists(s - {x});
      var p :| IsEarliest(p, s - {x});
      if Key(x) < Key(p) {
        assert IsEarliest(x, s);
      } else {
        assert IsEarliest(p, s);
      }
    } else {
      assert IsEarliest(x, s);
    }
  }

  function Earliest(s: set<Period>): (r: Period)
    requires s != {}
    ensures r in s && forall q :: q in s ==> Key(r) <= Key(q)
  {
    EarliestExists(s);
    var p :| IsEarliest(p, s);
    p
  }

  predicate StrictlyIncreasing(ps: seq<Period>)
  {
    forall i, j :: 0 <= i < j < |ps| ==> Key(ps[i]) < Key(ps[j])
  }

  /**
   * The distinct periods of a table in chronological order, as
   * `sorted(df[['年份','月份']].drop_duplicates(), key=year*12+month)` and
   * `drop_duplicates().sort_values(['年份','月份'])` produce them.
   */
  function SortedPeriods(s: set<Period>): (r: seq<Period>)
    ensures StrictlyIncreasing(r)
    ensures forall p :: p in r <==> p in s
    ensures |r| == |s|
    decreases |s|
  {
    if s == {} then []
    else
      var e := Earliest(s);
      var rest := SortedPeriods(s - {e});
      assert forall q :: q in rest ==> Key(e) < Key(q) by {
        forall q | q in rest ensures Key(e) < Key(q) {
          KeyInjective(e, q);
        }
      }
      [e] + rest
  }

  lemma StrictlyIncreasingDistinct(ps: seq<Period>, i: int, j: int)
    requires StrictlyIncreasing(ps)
    requires 0 <= i < |ps| && 0 <= j < |ps| && i != j
    ensures ps[i] != ps[j]
  {
  }

  predicate Distinct(w: seq<Period>)
  {
    forall i, j :: 0 <= i < j < |w| ==> w[i] != w[j]
  }

  /** A prefix one longer is the shorter prefix followed by the next element. */
  lemma PrefixSnoc<T>(xs: seq<T>, n: nat)
    requires 0 < n <= |xs|
    ensures xs[..n] == xs[..n - 1] + [xs[n - 1]]
  {
  }

  /** The length that `xs[:n]` (and pandas `head(n)`) keeps: a negative n drops |n| from the end. */
  function PrefixLength(len: nat, n: int): (k: nat)
    ensures k <= len
    ensures n >= 0 ==> k == (if n < len then n else len)
    ensures n < 0 ==> k == (if len + n > 0 then len + n else 0)
  {
    if n >= 0 then (if n < len then n else len)
    else if len + n > 0 then len + n else 0
  }

  function Prefix<T>(xs: seq<T>, n: int): seq<T>
  {
    xs[..PrefixLength(|xs|, n)]
  }

  /** An inventory row: material and quantity on hand. */
  datatype StockRow = StockRow(material: Id, qty: real)

  /** The stock of m in one inventory table: its first row, or 0 when it has none. */
  function FirstStock(pool: seq<StockRow>, m: Id): (q: real)
    ensures (forall i :: 0 <= i < |pool| ==> pool[i].material != m) ==> q == 0.0
    ensures forall i :: 0 <= i < |pool| && pool[i].material == m && (forall j :: 0 <= j < i ==> pool[j].material != m) ==>
      q == pool[i].qty
    decreases |pool|
  {
    if |pool| == 0 then 0.0
    else if pool[0].material == m then pool[0].qty
    else
      var rest := FirstStock(pool[1..], m);
      assert forall i :: 1 <= i < |pool| ==> pool[1..][i - 1] == pool[i];
      rest
  }

  /** Per-material tables of period rows, flattened into one table keyed by (material, period). */
  function Flatten<R>(runs: map<Id, map<Period, R>>): (plan: map<(Id, Period), R>)
    ensures forall m, p :: (m, p) in plan <==> m in runs && p in runs[m]
    ensures forall m, p :: (m, p) in plan ==> plan[(m, p)] == runs[m][p]
  {
    map m, p | m in runs && p in runs[m] :: (m, p) := runs[m][p]
  }
}

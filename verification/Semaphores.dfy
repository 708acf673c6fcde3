/** One semaphore seen on its own: its value and the processes waiting on it, oldest first. */
module Semaphores {
  import opened Sequences

  datatype Sem<T> = Sem(value: int, queue: seq<T>)

  ghost function Down<T>(sem: Sem<T>, p: T): Sem<T> {
    if sem.value - 1 < 0 then Sem(sem.value - 1, sem.queue + [p]) else Sem(sem.value - 1, sem.queue)
  }

  ghost function Up<T>(sem: Sem<T>): Sem<T> {
    if sem.value + 1 <= 0 && sem.queue != [] then Sem(sem.value + 1, sem.queue[1..]) else Sem(sem.value + 1, sem.queue)
  }

  /** The waiters in d are killed; only an ordinary semaphore gets their claims back. */
  ghost function Reap<T>(sem: Sem<T>, d: set<T>, ordinary: bool): Sem<T> {
    var q := Minus(sem.queue, d);
    Sem(sem.value + if ordinary then |sem.queue| - |q| else 0, q)
  }

  /** p waits ahead of q. */
  ghost predicate Ahead<T>(s: seq<T>, p: T, q: T) {
    exists i, j | 0 <= i < j < |s| :: s[i] == p && s[j] == q
  }

  lemma {:induction false} MinusAhead<T>(s: seq<T>, d: set<T>, p: T, q: T)
    requires Ahead(s, p, q) && p !in d && q !in d
    ensures Ahead(Minus(s, d), p, q)
  {
    var i, j :| 0 <= i < j < |s| && s[i] == p && s[j] == q;
    var r := Minus(s[1..], d);
    if i > 0 {
      assert s[1..][i - 1] == p && s[1..][j - 1] == q;
      MinusAhead(s[1..], d, p, q);
      var k, l :| 0 <= k < l < |r| && r[k] == p && r[l] == q;
      if s[0] !in d {
        assert ([s[0]] + r)[k + 1] == p && ([s[0]] + r)[l + 1] == q;
      }
    } else {
      MinusElements(s[1..], d);
      assert s[1..][j - 1] == q;
      var l :| 0 <= l < |r| && r[l] == q;
      assert ([s[0]] + r)[0] == p && ([s[0]] + r)[l + 1] == q;
    }
  }
}

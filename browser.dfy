/** The browser as the client sees it: the shared `localStorage` and an ordered log of the
    observable effects (toasts, navigation, requests and storage writes). */
module Browser {
  import opened JsValue
  import opened Toasts
  import opened Http

  datatype Effect =
    | Shown(toast: Toast)
    /** `toast.dismiss` of the loading toast the running operation showed. */
    | Dismissed
    | Navigated(path: string)
    /** `setTimeout(() => navigate(path), delayMs)`: a navigation that happens later. */
    | NavigationScheduled(path: string, delayMs: nat)
    | Sent(request: Request)
    | Stored(key: string, value: Value)
    | Removed(key: string)

  /** `localStorage.getItem(key)`: the stored value, or null when the key is absent. */
  function Item(storage: map<string, Value>, key: string): (v: Value)
    ensures key !in storage ==> v == Null
  {
    if key in storage then storage[key] else Null
  }

  /** The toasts among `effects`, in the order they were shown. */
  function ShownToasts(effects: seq<Effect>): (ts: seq<Toast>)
    ensures |ts| <= |effects|
  {
    if effects == [] then []
    else (if effects[0].Shown? then [effects[0].toast] else []) + ShownToasts(effects[1..])
  }

  /** A toast is listed exactly when it was shown. */
  lemma {:induction false} ShownToastsMembers(effects: seq<Effect>, t: Toast)
    ensures t in ShownToasts(effects) <==> Shown(t) in effects
    decreases |effects|
  {
    if effects != [] {
      ShownToastsMembers(effects[1..], t);
      assert effects == [effects[0]] + effects[1..];
    }
  }

  /** Toasts of consecutive stretches of effects follow each other. */
  lemma {:induction false} ShownToastsAppend(a: seq<Effect>, b: seq<Effect>)
    ensures ShownToasts(a + b) == ShownToasts(a) + ShownToasts(b)
    decreases |a|
  {
    if a == [] {
      assert a + b == b;
    } else {
      assert (a + b)[0] == a[0] && (a + b)[1..] == a[1..] + b;
      ShownToastsAppend(a[1..], b);
    }
  }

  /** The toasts of a single effect. */
  lemma ShownToastsOne(e: Effect)
    ensures ShownToasts([e]) == if e.Shown? then [e.toast] else []
  {
    assert [e][1..] == [];
  }

  /** Appending to the log in two steps is appending the two stretches at once. */
  lemma AppendAssoc(log: seq<Effect>, first: seq<Effect>, second: seq<Effect>)
    ensures log + first + second == log + (first + second)
  {
  }

  class Env {
    /** `localStorage`; the stored user record is kept parsed. */
    var storage: map<string, Value>
    var effects: seq<Effect>

    constructor (initial: map<string, Value>)
      ensures storage == initial && effects == []
    {
      storage := initial;
      effects := [];
    }

    function GetItem(key: string): (v: Value)
      reads this
    {
      Item(storage, key)
    }

    method SetItem(key: string, value: Value)
      modifies this
      ensures storage == old(storage)[key := value]
      ensures effects == old(effects) + [Stored(key, value)]
    {
      storage := storage[key := value];
      effects := effects + [Stored(key, value)];
    }

    method RemoveItem(key: string)
      modifies this
      ensures storage == old(storage) - {key}
      ensures effects == old(effects) + [Removed(key)]
    {
      storage := storage - {key};
      effects := effects + [Removed(key)];
    }

    method Show(t: Toast)
      modifies this
      ensures storage == old(storage)
      ensures effects == old(effects) + [Shown(t)]
    {
      effects := effects + [Shown(t)];
    }

    method Dismiss()
      modifies this
      ensures storage == old(storage)
      ensures effects == old(effects) + [Dismissed]
    {
      effects := effects + [Dismissed];
    }

    method Navigate(path: string)
      modifies this
      ensures storage == old(storage)
      ensures effects == old(effects) + [Navigated(path)]
    {
      effects := effects + [Navigated(path)];
    }

    method NavigateLater(path: string, delayMs: nat)
      modifies this
      ensures storage == old(storage)
      ensures effects == old(effects) + [NavigationScheduled(path, delayMs)]
    {
      effects := effects + [NavigationScheduled(path, delayMs)];
    }

    method Send(r: Request)
      modifies this
      ensures storage == old(storage)
      ensures effects == old(effects) + [Sent(r)]
    {
      effects := effects + [Sent(r)];
    }
  }
}

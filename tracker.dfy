/**
 * The in-flight request tracker (`currentExecutingRequests`): a dictionary from
 * request key to the cancel-token source of the request last started under it.
 */
module Tracker {
  import opened Http

  class RequestTracker {
    /** The dictionary itself. */
    var pending: map<string, Handle>
    /** The next cancel-token source `CancelToken.source()` will make. */
    var nextHandle: Handle
    /** Every source whose `cancel()` has been called. */
    ghost var cancelled: set<Handle>

    /** Every stored source was made by this tracker and is still live, and no
        source is stored under two keys. */
    ghost predicate Valid()
      reads this
    {
      && (forall k :: k in pending ==> pending[k] < nextHandle && pending[k] !in cancelled)
      && (forall k, k' :: k in pending && k' in pending && k != k' ==> pending[k] != pending[k'])
      && (forall h :: h in cancelled ==> h < nextHandle)
    }

    constructor()
      ensures Valid()
      ensures pending == map[] && nextHandle == 0 && cancelled == {}
    {
      pending := map[];
      nextHandle := 0;
      cancelled := {};
    }

    /** `CancelToken.source()`: a source no one has seen before. */
    method NewSource() returns (h: Handle)
      requires Valid()
      modifies this
      ensures Valid()
      ensures h == old(nextHandle) && nextHandle == h + 1
      ensures pending == old(pending) && cancelled == old(cancelled)
    {
      h := nextHandle;
      nextHandle := nextHandle + 1;
    }

    /**
     * The body of `cancelRequestInterceptor` for request key `key`. When the key
     * is already taken and `cancelOld` holds, the stored source is cancelled and
     * deleted; when it does not, a throwaway source is made and cancelled and
     * the entry under the empty key is deleted (the old entry under `key` is
     * then overwritten). Either way a fresh source is stored under `key`.
     */
    method Register(key: string, cancelOld: bool) returns (h: Handle)
      requires Valid()
      modifies this
      ensures Valid()
      ensures key in pending && pending[key] == h
      ensures h >= old(nextHandle) && h !in cancelled
      ensures forall k :: k in old(pending) ==> old(pending)[k] != h
      ensures key !in old(pending) ==> cancelled == old(cancelled) && h == old(nextHandle)
      ensures key in old(pending) && cancelOld ==>
        && cancelled == old(cancelled) + {old(pending)[key]}
        && (forall k :: k in pending ==> pending[k] != old(pending)[key])
      ensures key in old(pending) && !cancelOld ==>
        cancelled == old(cancelled) + {old(nextHandle)} && h == old(nextHandle) + 1
      ensures forall k :: k != key ==>
        (k in pending <==> k in old(pending) && !(k == "" && key in old(pending) && !cancelOld))
      ensures forall k :: k != key && k in pending ==> pending[k] == old(pending)[k]
    {
      if key in pending {
        if cancelOld {
          var stale := pending[key];
          pending := pending - {key};
          cancelled := cancelled + {stale};
        } else {
          var throwaway := NewSource();
          pending := pending - {""};
          cancelled := cancelled + {throwaway};
        }
      }
      h := NewSource();
      pending := pending[key := h];
    }

    /** `delete currentExecutingRequests[key]`; deleting a missing key does nothing. */
    method Evict(key: string)
      requires Valid()
      modifies this
      ensures Valid()
      ensures pending == old(pending) - {key}
      ensures nextHandle == old(nextHandle) && cancelled == old(cancelled)
    {
      pending := pending - {key};
    }
  }

  // The dictionary is a plain object literal, so `currentExecutingRequests[key]`
  // also finds the members every object inherits from `Object.prototype`. The
  // class above looks keys up among the entries the tracker itself made; the
  // definitions below follow the lookup as written.

  /** Names under which a plain object answers with an inherited member:
      the methods of `Object.prototype` and its `__proto__` accessor. */
  predicate IsInheritedName(key: string)
  {
    key in {"constructor", "hasOwnProperty", "isPrototypeOf", "propertyIsEnumerable",
            "toLocaleString", "toString", "valueOf",
            "__defineGetter__", "__defineSetter__", "__lookupGetter__", "__lookupSetter__",
            "__proto__"}
  }

  /** How `cancelRequestInterceptor` as written ends for `key`. */
  datatype RegisterEnd =
    | Filed                // a fresh source is stored under the key
    | FiledAfterDroppingEmptyKey  // ... after deleting the entry under ''
    | ReprototypedAfterDroppingEmptyKey
                           // the entry under '' is deleted and the fresh source
                           // becomes the dictionary's prototype: nothing is filed
    | ThrowsTypeError      // `source.cancel` is not a function

  /**
   * The interceptor with the inherited-member lookup: a key that is not an
   * own entry but names an inherited member still counts as "already used".
   * Under `__proto__` the lookup answers `Object.prototype` and the store
   * assigns the dictionary's prototype, so that key is never an own entry.
   */
  function RegisterAsWritten(pending: map<string, Handle>, key: string, cancelOld: bool): (e: RegisterEnd)
    ensures key == "__proto__" ==>
      e == (if cancelOld then ThrowsTypeError else ReprototypedAfterDroppingEmptyKey)
    ensures key != "__proto__" && key in pending ==>
      e == (if cancelOld then Filed else FiledAfterDroppingEmptyKey)
    ensures key !in pending && !IsInheritedName(key) ==> e == Filed
    ensures key !in pending && IsInheritedName(key) && key != "__proto__" ==>
      e == (if cancelOld then ThrowsTypeError else FiledAfterDroppingEmptyKey)
    ensures e == Filed || e == FiledAfterDroppingEmptyKey ==> key != "__proto__"
  {
    if key == "__proto__" then
      if cancelOld then ThrowsTypeError else ReprototypedAfterDroppingEmptyKey
    else if key in pending || IsInheritedName(key) then
      if cancelOld then
        // the old "source" is the inherited function, which has no `cancel`
        if key in pending then Filed else ThrowsTypeError
      else FiledAfterDroppingEmptyKey
    else Filed
  }

  /** A request to the relative url `constructor`, on a tracker with nothing in
      flight and `cancelOldRequest: true`, fails before it is sent; with
      `cancelOldRequest: false` it deletes the entry of a request filed under ''.
      A request to `__proto__` fails with the flag set, and without it drops
      the entry under '' and files nothing. */
  lemma InheritedNameBreaksRegister()
    ensures RegisterAsWritten(map[], "constructor", true) == ThrowsTypeError
    ensures RegisterAsWritten(map["" := 0], "toString", false) == FiledAfterDroppingEmptyKey
    ensures RegisterAsWritten(map[], "__proto__", true) == ThrowsTypeError
    ensures RegisterAsWritten(map["" := 0], "__proto__", false) == ReprototypedAfterDroppingEmptyKey
  {
    assert IsInheritedName("constructor") && IsInheritedName("toString");
  }
}

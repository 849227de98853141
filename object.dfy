/**
 * The scoped handle wrapper object<T> (src/core/object.hpp): one native handle plus a deleter
 * (a std::function that may be empty). The C++ destructor becomes Destroy, which a scope exit calls once.
 */
module Object {
  import opened VkTypes

  /** A std::function<void(T)>: empty, or some callable told apart by an identity. */
  datatype Deleter = EmptyDeleter | Callable(id: nat)

  /** One invocation of a deleter: which deleter ran, on which handle. */
  datatype Release = Release(deleter: Deleter, handle: Handle)

  class Object {
    var handle: Handle
    var deleter: Deleter
    /** Every invocation of a deleter this object has made, in order. */
    ghost var released: seq<Release>
    /** Set once the destructor has run. */
    ghost var destroyed: bool

    /** object(): a null handle and an empty deleter. */
    constructor Default()
      ensures handle == NullHandle && deleter == EmptyDeleter
      ensures released == [] && !destroyed
    {
      handle := NullHandle;
      deleter := EmptyDeleter;
      released := [];
      destroyed := false;
    }

    /** object(h, d): holds h and will release it with d. */
    constructor (h: Handle, d: Deleter)
      ensures handle == h && deleter == d
      ensures released == [] && !destroyed
    {
      handle := h;
      deleter := d;
      released := [];
      destroyed := false;
    }

    /** get() and the conversion operator to T: the stored handle; nothing changes. */
    method Get() returns (h: Handle)
      ensures h == handle
    {
      h := handle;
    }

    /**
     * reset(h): installs h and returns the previous handle. The deleter is kept and is NOT run
     * on the previous handle; releasing it is left to the caller.
     */
    method Reset(h: Handle) returns (previous: Handle)
      modifies this
      ensures previous == old(handle) && handle == h
      ensures deleter == old(deleter)
      ensures released == old(released) && destroyed == old(destroyed)
    {
      previous := handle;
      handle := h;
    }

    /** reset(h, d): replaces the deleter by d, then behaves as reset(h). */
    method ResetWith(h: Handle, d: Deleter) returns (previous: Handle)
      modifies this
      ensures previous == old(handle) && handle == h
      ensures deleter == d
      ensures released == old(released) && destroyed == old(destroyed)
    {
      deleter := d;
      previous := Reset(h);
    }

    /** ~object(): runs the deleter once on the held handle when both the deleter and the handle are non-null. */
    method Destroy()
      requires !destroyed
      modifies this
      ensures destroyed
      ensures handle == old(handle) && deleter == old(deleter)
      ensures released == old(released) + DestructorReleases(handle, deleter)
    {
      if deleter != EmptyDeleter && handle != NullHandle {
        released := released + [Release(deleter, handle)];
      }
      destroyed := true;
    }
  }

  /** The deleter invocations ~object() makes for a given handle and deleter. */
  function DestructorReleases(h: Handle, d: Deleter): (r: seq<Release>)
    ensures |r| <= 1
    ensures r != [] <==> d != EmptyDeleter && h != NullHandle
    ensures r != [] ==> r[0] == Release(d, h)
  {
    if d != EmptyDeleter && h != NullHandle then [Release(d, h)] else []
  }

  /**
   * A wrapper that is reset before it goes out of scope releases only the handle it holds last:
   * the handle it was built with is handed back to the caller and never passed to the deleter.
   */
  method ResetThenDestroy(h: Handle, d: Deleter, h2: Handle) returns (previous: Handle, ghost log: seq<Release>)
    ensures previous == h
    ensures log == DestructorReleases(h2, d)
    ensures h != h2 ==> Release(d, h) !in log
  {
    var o := new Object(h, d);
    previous := o.Reset(h2);
    o.Destroy();
    log := o.released;
  }
}

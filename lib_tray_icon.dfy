/** The public `TrayIcon` of src/lib.rs: an id drawn from the process-wide `COUNTER` plus a platform driver. */
module Facade {
  import opened TrayTypes
  import opened Attributes

  /**
   * `COUNTER`. src/counter.rs is not part of this model; `Counter::next` is
   * taken to return the current value and advance it by one.
   */
  class Counter {
    var current: nat

    constructor (start: nat)
      ensures current == start
    {
      current := start;
    }

    method Next() returns (id: nat)
      modifies this
      ensures id == old(current) && current == old(current) + 1
    {
      id := current;
      current := current + 1;
    }
  }

  class TrayIcon {
    const id: nat

    constructor (id: nat)
      ensures this.id == id
    {
      this.id := id;
    }

    /**
     * `TrayIcon::new`: the id is drawn before the platform driver is built,
     * so it is consumed even when that fails. The driver's outcome is a parameter.
     */
    static method New(counter: Counter, attrs: TrayIconAttributes, platform: Result<(), Error>) returns (r: Result<TrayIcon, Error>)
      modifies counter
      ensures counter.current == old(counter.current) + 1
      ensures r.Ok? <==> platform.Ok?
      ensures r.Err? ==> r.error == platform.error
      ensures r.Ok? ==> fresh(r.value) && r.value.id == old(counter.current)
    {
      var id := counter.Next();
      match platform {
        case Err(e) => r := Err(e);
        case Ok(_) =>
          var icon := new TrayIcon(id);
          r := Ok(icon);
      }
    }

    /** `TrayIcon::id`. */
    method Id() returns (r: nat)
      ensures r == id
    {
      r := id;
    }
  }

  /**
   * Two icons built one after the other from the same counter never share an
   * id; a failed first build still uses up its id.
   */
  method NewTwice(counter: Counter, a1: TrayIconAttributes, a2: TrayIconAttributes,
                  p1: Result<(), Error>, p2: Result<(), Error>)
    returns (r1: Result<TrayIcon, Error>, r2: Result<TrayIcon, Error>)
    modifies counter
    ensures counter.current == old(counter.current) + 2
    ensures r1.Ok? <==> p1.Ok?
    ensures r2.Ok? <==> p2.Ok?
    ensures r1.Ok? && r2.Ok? ==> r1.value.id < r2.value.id
    ensures r2.Ok? ==> r2.value.id == old(counter.current) + 1
  {
    r1 := TrayIcon.New(counter, a1, p1);
    r2 := TrayIcon.New(counter, a2, p2);
  }
}

/** The payload of a host plugin event, read with `$event->get($name)` and
    written with `$event->set($name, $value)`. */
module HostEvent {
  import opened Php
  import opened Settings

  /** A value stored under one event parameter. */
  datatype Param =
    | Scalar(v: Value)                         // an id, a flag, a name
    | Pairs(pairs: seq<(string, Value)>)       // a submitted settings array
    | Published(name: string, settings: Schema) // the settings offered to the administration page

  type Event = map<string, Param>

  /** `$event->get($name)` of a scalar parameter; an absent one reads as null. */
  function ScalarGet(event: Event, name: string): Value
  {
    if name in event && event[name].Scalar? then event[name].v else Null
  }

  /** `$event->get($name)` iterated by `foreach`: the submitted pairs, none if absent. */
  function PairsGet(event: Event, name: string): seq<(string, Value)>
  {
    if name in event && event[name].Pairs? then event[name].pairs else []
  }
}

/** The callbacks the wizard hands to each step form: `onChange` receives the
    submitted values, `onNext` and `onPrev` move between steps. A step form's
    handler is modelled by the list of callbacks it invokes, in order. */
module Callbacks {

  datatype Callback =
    | OnChange(newData: map<string, string>)
    | OnNext
    | OnPrev

  /** The shallow merge `{ ...base, ...update }`: keys of `update` take its
      values, every other key of `base` keeps its own. It is both what the
      wizard does with the data a step hands it, and what react-hook-form
      passes to a submit handler: the form's default values (the whole record
      the wizard handed down) with the registered fields overwritten by what
      the user entered. */
  function Merge(base: map<string, string>, update: map<string, string>): (r: map<string, string>)
    ensures r.Keys == base.Keys + update.Keys
    ensures forall k :: k in update ==> r[k] == update[k]
    ensures forall k :: k in base && k !in update ==> r[k] == base[k]
  {
    base + update
  }

  /** A field's value as a form shows it: the empty string when the record has no such field. */
  function Lookup(data: map<string, string>, field: string): (v: string)
    ensures field in data ==> v == data[field]
    ensures field !in data ==> v == ""
  {
    if field in data then data[field] else ""
  }
}

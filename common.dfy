/** Small shared vocabulary of both calculator generations: optional values,
    JavaScript's `Math.max`/`Math.round` on exact numbers, and the form state
    (client metadata and the two discount inputs) that both generations read. */
module Common {

  datatype Option<+T> = None | Some(value: T)

  /** `Math.max(a, b)` on exact numbers. */
  function Max(a: real, b: real): (r: real)
    ensures r >= a && r >= b
    ensures r == a || r == b
  {
    if a >= b then a else b
  }

  /** `Math.round(x)`: the nearest integer, halves rounded up (towards +infinity),
      which is `Floor(x + 1/2)`. */
  function Round(x: real): (r: int)
    ensures (r as real) - 0.5 <= x < (r as real) + 0.5
  {
    (x + 0.5).Floor
  }

  /** The client metadata fields of the form (name, phone, project, notes). */
  datatype Client = Client(name: string, phone: string, project: string, notes: string)

  /** An empty form. */
  const EmptyClient: Client := Client("", "", "", "")

  /** The name stored when the name field is empty. */
  const DefaultClientName: string := "Без имени"

  /** `value || 'Без имени'` applied to the client name when a calculation is saved. */
  function SavedClient(c: Client): (r: Client)
    ensures r.phone == c.phone && r.project == c.project && r.notes == c.notes
    ensures c.name != "" ==> r.name == c.name
    ensures c.name == "" ==> r.name == DefaultClientName
    ensures r.name != ""
  {
    if c.name == "" then c.(name := DefaultClientName) else c
  }

  /** The two discount inputs, already parsed: `parseFloat(text) || 0`, so an
      empty or unparsable input is 0. */
  datatype DiscountInput = DiscountInput(percent: real, amount: real)

  const NoDiscount: DiscountInput := DiscountInput(0.0, 0.0)
}

/**
 * Result payloads. A record is what an evaluation function returns and what a
 * checkpoint file holds: a mapping from field name to a value. Only the kinds
 * of value the runner's fixtures produce are represented.
 */
module Values {

  datatype Value = Int(i: int) | Bool(b: bool) | Str(s: string)

  type Record = map<string, Value>
}

/** Small value wrappers shared by the storefront modules. */
module Wrappers {

  /** An optional value: `undefined` / absent on one side, a value on the other. */
  datatype Option<+T> = None | Some(value: T)

  /** What a store finds under its storage key when it hydrates:
      nothing (the key is missing or holds an empty string), text that does
      not parse, or a parsed list. */
  datatype Saved<+T> = Absent | Unreadable | Parsed(value: T)
}

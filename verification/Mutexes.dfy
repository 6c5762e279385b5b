/** The owner of a mutex. */
module Mutexes {

  datatype Owner = Free | By(thread: nat)
}

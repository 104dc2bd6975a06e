// Data directions, and pairs indexed by them (the arrays of two of the block layer).
module Directions {
  datatype Dir = Read | Write

  datatype Two<+T> = Two(read: T, write: T)

  function At<T>(t: Two<T>, d: Dir): T { if d == Read then t.read else t.write }

  function With<T>(t: Two<T>, d: Dir, v: T): Two<T> { if d == Read then Two(v, t.write) else Two(t.read, v) }

  function Other(d: Dir): Dir { if d == Read then Write else Read }
}

/** What every handler shares of the database: the statuses of bridge rows, and the statements on opStatus. */
module Tables {

  type Hash = string

  const READY_PAID := 96
  const PAID_CRASH := 97
  const PAID_SUCCESS := 98
  const BRIDGE_SUCCESS := 99

  predicate Unsettled(status: int)
  {
    status == 0 || status == READY_PAID || status == PAID_CRASH || status == PAID_SUCCESS
  }

  // UPDATE transfers SET opStatus = code WHERE hash = h
  function SetOp(ops: map<Hash, int>, h: Hash, code: int): map<Hash, int>
  {
    if h in ops then ops[h := code] else ops
  }

  predicate Open(ops: map<Hash, int>, h: Hash)
  {
    h in ops && (ops[h] == 0 || ops[h] == 1)
  }

  // UPDATE transfers SET opStatus = 99 WHERE opStatus IN (0, 1) AND hash IN (h, g)
  function CloseBoth(ops: map<Hash, int>, h: Hash, g: Hash): map<Hash, int>
  {
    map k | k in ops :: if (k == h || k == g) && Open(ops, k) then BRIDGE_SUCCESS else ops[k]
  }
}

/** Client scenarios: a charger driven over a scripted bus, showing what its
    callers can conclude from the operations' contracts alone. */
module Scenarios {
  import opened Registers
  import opened Bitfields
  import opened Bus
  import opened Driver

  /** The unlock write fails: nothing else is sent and its error is returned. */
  method UnlockFails(e: BusError) returns (r: Result<()>, trace: seq<Transaction>)
    ensures trace == [UNLOCK]
    ensures r == Err(e)
  {
    var bus := new I2c(n => if n == 0 then Nack(e) else Ack([]));
    var charger := new Charger(bus);
    r := charger.SetFastChargeCurrent(1000);
    trace := bus.trace;
  }

  /** The target write fails and the lock write succeeds: the lock write is
      still sent, and the target write's error is returned. */
  method TargetWriteFails(e: BusError) returns (r: Result<()>, trace: seq<Transaction>)
    ensures trace == [UNLOCK, Transaction.Write(ADDR, [CHARGER_CONFIG_2, 20]), LOCK]
    ensures r == Err(e)
  {
    var bus := new I2c(n => if n == 1 then Nack(e) else Ack([]));
    var charger := new Charger(bus);
    r := charger.SetFastChargeCurrent(1000);
    trace := bus.trace;
  }

  /** The target write and the lock write both fail: the lock write's error is
      the one returned. */
  method TargetAndLockFail(e1: BusError, e2: BusError) returns (r: Result<()>, trace: seq<Transaction>)
    ensures trace == [UNLOCK, Transaction.Write(ADDR, [CHARGER_CONFIG_5, 0x1f]), LOCK]
    ensures r == Err(e2)
  {
    var bus := new I2c(n => if n == 1 then Nack(e1) else if n == 2 then Nack(e2) else Ack([]));
    var charger := new Charger(bus);
    r := charger.SetSysIlim(20000, true);
    trace := bus.trace;
  }

  /** A failed read of CHARGER_CONFIG_9 sends no write. */
  method ChginReadFails(e: BusError) returns (r: Result<()>, trace: seq<Transaction>)
    ensures trace == [WriteRead(ADDR, [CHARGER_CONFIG_9], 1)]
    ensures r == Err(e)
  {
    var bus := new I2c(n => if n == 0 then Nack(e) else Ack([]));
    var charger := new Charger(bus);
    r := charger.SetChginIlim(500);
    trace := bus.trace;
  }

  /** The read-modify-write keeps the top two bits of the value read. */
  method ChginKeepsTopBits() returns (r: Result<()>, trace: seq<Transaction>)
    ensures trace == [WriteRead(ADDR, [CHARGER_CONFIG_9], 1),
                      Transaction.Write(ADDR, [CHARGER_CONFIG_9, 0x89])]
    ensures r == Ok(())
  {
    var bus := new I2c(n => if n == 0 then Ack([0xa5]) else Ack([]));
    var charger := new Charger(bus);
    r := charger.SetChginIlim(500);
    trace := bus.trace;
  }

  /** Of the three bytes read from CHARGER_INTERRUPT on, only the third is
      decoded: 0b1001_0000 sets the charger and adaptive input current loop
      flags. */
  method StatusFromThirdByte() returns (r: Result<ChargerInterrupts>, trace: seq<Transaction>)
    ensures trace == [WriteRead(ADDR, [CHARGER_INTERRUPT], 3)]
    ensures r == Ok(ChargerInterrupts(false, false, false, false, true, false, false, true))
  {
    var bus := new I2c(n => Ack([0xff, 0xff, 0x90]));
    var charger := new Charger(bus);
    r := charger.ChargerStatus();
    trace := bus.trace;
  }

  /** Three zero detail bytes decode to the zeroth variant of every field. */
  method DetailsAllZero() returns (r: Result<Details>, trace: seq<Transaction>)
    ensures trace == [WriteRead(ADDR, [CHARGER_DETAILS_0], 3)]
    ensures r == Ok(Details(Connected, Undervoltage, Prequalification, BatteryRemoved,
                            BelowThreshold, BypassNodeDetails(false, false, false, false), Cold))
  {
    var bus := new I2c(n => Ack([0, 0, 0]));
    var charger := new Charger(bus);
    r := charger.ChargerDetails();
    trace := bus.trace;
    DetailsZero();
  }
}

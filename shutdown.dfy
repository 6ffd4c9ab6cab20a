/** The shutdown latch and the relay of Helpers/shutdown.c over an abstract
    board: the GPIO pins and the PWM state machines of pio0. */
module Shutdown {
  import PhasePwm
  import opened RingLog
  import Thermocouple

  /** GPIO0 to GPIO29. */
  const NUM_GPIO: nat := 30
  /** The one word the halted firmware answers. */
  const TC_CSV: seq<char> := "TC_CSV"
  /** `scanf("%7s", ...)` reads at most this many characters. */
  const WORD_WIDTH: nat := 7

  /** Which peripheral drives a pin: software (SIO), a PIO block, or none yet. */
  datatype PinFunction = Sio | Pio | Unassigned

  /** A pin's function, direction and output level. */
  datatype Gpio = Gpio(role: PinFunction, isOutput: bool, level: bool)

  const RESET_PIN: Gpio := Gpio(Unassigned, false, false)
  /** `gpio_init`, `gpio_set_dir(.., GPIO_OUT)`, `gpio_put(.., 0)`. */
  const DRIVEN_LOW: Gpio := Gpio(Sio, true, false)

  /** Driven low by software: the PWM pins and the relay pin. */
  predicate Safe(gpio: seq<Gpio>, relayPin: nat)
    requires |gpio| == NUM_GPIO && relayPin < NUM_GPIO
  {
    (forall i :: 0 <= i < PhasePwm.SM_COUNT ==> gpio[PhasePwm.PWM_PINS[i]] == DRIVEN_LOW) &&
    gpio[relayPin] == DRIVEN_LOW
  }

  /** The pins after `shutdown`: every PWM pin and the relay pin driven low. */
  function SafeGpio(gpio: seq<Gpio>, relayPin: nat): (g: seq<Gpio>)
    requires |gpio| == NUM_GPIO && relayPin < NUM_GPIO
    ensures |g| == NUM_GPIO
  {
    seq(NUM_GPIO, p requires 0 <= p < NUM_GPIO =>
      if p in PhasePwm.PWM_PINS || p == relayPin then DRIVEN_LOW else gpio[p])
  }

  /** Shutdown reaches a safe state, touches no other pin, and shutting down
      again changes nothing. */
  lemma ShutdownIsSafe(gpio: seq<Gpio>, relayPin: nat)
    requires |gpio| == NUM_GPIO && relayPin < NUM_GPIO
    ensures Safe(SafeGpio(gpio, relayPin), relayPin)
    ensures forall p :: 0 <= p < NUM_GPIO && p !in PhasePwm.PWM_PINS && p != relayPin ==>
      SafeGpio(gpio, relayPin)[p] == gpio[p]
    ensures SafeGpio(SafeGpio(gpio, relayPin), relayPin) == SafeGpio(gpio, relayPin)
  {
  }

  class Board {
    var gpio: seq<Gpio>
    /** Set once `shutdown` has entered its endless loop. */
    var halted: bool
    /** `SHUTDOWN_RELAY_PIN`. */
    const relayPin: nat

    ghost predicate Valid()
      reads this
    {
      |gpio| == NUM_GPIO && relayPin < NUM_GPIO
    }

    constructor (relay: nat)
      requires relay < NUM_GPIO
      ensures Valid() && relayPin == relay && !halted
      ensures gpio == seq(NUM_GPIO, _ => RESET_PIN)
    {
      relayPin := relay;
      gpio := seq(NUM_GPIO, _ => RESET_PIN);
      halted := false;
    }

    /** `init_relay`: the relay pin becomes a software output at 1. */
    method InitRelay()
      requires Valid()
      modifies this
      ensures Valid() && halted == old(halted)
      ensures gpio == old(gpio)[relayPin := Gpio(Sio, true, true)]
    {
      gpio := gpio[relayPin := Gpio(Sio, true, true)];
    }

    /** `set_relay`: the relay pin's output level becomes `hilo != 0`; its
        function and direction stay as they were. */
    method SetRelay(hilo: int)
      requires Valid()
      modifies this
      ensures Valid() && halted == old(halted)
      ensures gpio == old(gpio)[relayPin := old(gpio[relayPin]).(level := hilo != 0)]
    {
      gpio := gpio[relayPin := gpio[relayPin].(level := hilo != 0)];
    }

    /** `shutdown` up to its endless loop: the PWM pins are taken from the PIO
        and driven low, state machines 0 to 3 of pio0 are disabled, and the
        relay pin is driven low. Nothing else of the PWM control changes. */
    method Shutdown(pwm: PhasePwm.PwmControl)
      requires Valid() && pwm.Valid()
      modifies this, pwm
      ensures Valid() && pwm.Valid() && halted
      ensures gpio == SafeGpio(old(gpio), relayPin)
      ensures pwm.smEnabled == [false, false, false, false]
      ensures pwm.txFifos == old(pwm.txFifos) && pwm.clkdivs == old(pwm.clkdivs)
      ensures pwm.Trigger() == old(pwm.Trigger())
      ensures pwm.currentFrequency == old(pwm.currentFrequency)
      ensures pwm.currentDutyCycle == old(pwm.currentDutyCycle)
    {
      for i := 0 to PhasePwm.SM_COUNT
        modifies this
        invariant |gpio| == NUM_GPIO
        invariant forall p :: 0 <= p < NUM_GPIO ==>
          gpio[p] == if p in PhasePwm.PWM_PINS[..i] then DRIVEN_LOW else old(gpio[p])
      {
        var pin := PhasePwm.PWM_PINS[i];
        gpio := gpio[pin := Gpio(Sio, false, false)];
        gpio := gpio[pin := gpio[pin].(isOutput := true)];
        gpio := gpio[pin := gpio[pin].(level := false)];
      }
      for sm := 0 to PhasePwm.SM_COUNT
        modifies pwm
        invariant pwm.Valid()
        invariant pwm.txFifos == old(pwm.txFifos) && pwm.clkdivs == old(pwm.clkdivs)
        invariant pwm.Trigger() == old(pwm.Trigger())
        invariant pwm.currentFrequency == old(pwm.currentFrequency)
        invariant pwm.currentDutyCycle == old(pwm.currentDutyCycle)
        invariant forall k :: 0 <= k < sm ==> !pwm.smEnabled[k]
      {
        pwm.smEnabled := pwm.smEnabled[sm := false];
      }
      gpio := gpio[relayPin := Gpio(Sio, false, false)];
      gpio := gpio[relayPin := gpio[relayPin].(isOutput := true)];
      gpio := gpio[relayPin := gpio[relayPin].(level := false)];
      assert PhasePwm.PWM_PINS[..PhasePwm.SM_COUNT] == PhasePwm.PWM_PINS;
      halted := true;
    }

    /** One pass of the endless loop of `shutdown`: `word` is what `scanf`
        read (empty when it read nothing). The log is printed on `TC_CSV`,
        and no output changes. */
    method HaltedStep(word: seq<char>, log: Thermocouple.TemperatureLog) returns (rows: seq<LogEntry>)
      requires Valid() && halted && log.Valid() && |word| <= WORD_WIDTH
      ensures word != TC_CSV ==> rows == []
      ensures word == TC_CSV ==> |rows| == Thermocouple.LOG_SIZE
      ensures word == TC_CSV ==>
                forall i :: 0 <= i < Thermocouple.LOG_SIZE ==> rows[i] == log.tcLog[Slot(log.logHead, i, Thermocouple.LOG_SIZE)]
    {
      rows := [];
      if word == TC_CSV {
        rows := log.PrintTcLogCsv();
      }
    }
  }
}

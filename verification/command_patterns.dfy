/**
  The smart-home devices and remote control of CommandPatterns.java.

  `SmartLamp` and `SmartLock` are objects with one boolean field each. A
  command names one device and one of its operations; executing it performs
  that single mutation. A `RemoteControl` holds two commands, one per button.
*/
module CommandPatterns {

  /** A lamp with a name and an on/off flag. */
  class SmartLamp {
    var isOn: bool
    const name: string

    /** A new lamp is off (the comment beside the constructor says on; the code sets off). */
    constructor (name: string)
      ensures this.name == name && !isOn
    {
      this.name := name;
      isOn := false;
    }

    /** `on`: the lamp is on afterwards, whatever it was before. */
    method On()
      modifies this`isOn
      ensures isOn
    {
      isOn := true;
    }

    /** `off`: the lamp is off afterwards, whatever it was before. */
    method Off()
      modifies this`isOn
      ensures !isOn
    {
      isOn := false;
    }
  }

  /** A door lock with a name and a locked flag. */
  class SmartLock {
    var isLocked: bool
    const name: string

    /** A new lock is unlocked: only the name is set, the flag keeps Java's default `false`. */
    constructor (name: string)
      ensures this.name == name && !isLocked
    {
      this.name := name;
      isLocked := false;
    }

    /** `lock`: locked afterwards, whatever it was before. */
    method Lock()
      modifies this`isLocked
      ensures isLocked
    {
      isLocked := true;
    }

    /** `unlock`: unlocked afterwards, whatever it was before. */
    method Unlock()
      modifies this`isLocked
      ensures !isLocked
    {
      isLocked := false;
    }
  }

  /** The concrete commands; each holds the one device it acts on. */
  datatype Command =
    | LockCommand(lock: SmartLock)
    | UnlockCommand(lock: SmartLock)
    | LightOnCommand(smartLamp: SmartLamp)

  /** The one device a command may change. */
  function Target(command: Command): (objs: set<object>)
    ensures |objs| == 1
  {
    match command
    case LockCommand(lock) => {lock}
    case UnlockCommand(lock) => {lock}
    case LightOnCommand(lamp) => {lamp}
  }

  /** The device state a command leaves behind. */
  ghost predicate Done(command: Command)
    reads Target(command)
  {
    match command
    case LockCommand(lock) => lock.isLocked
    case UnlockCommand(lock) => !lock.isLocked
    case LightOnCommand(lamp) => lamp.isOn
  }

  /** `execute`: the command's one mutation on its own device; no other object changes. */
  method Execute(command: Command)
    modifies Target(command)
    ensures Done(command)
  {
    match command
    case LockCommand(lock) => lock.Lock();
    case UnlockCommand(lock) => lock.Unlock();
    case LightOnCommand(lamp) => lamp.On();
  }

  /** A remote with two programmable buttons. */
  class RemoteControl {
    const button1: Command
    const button2: Command

    constructor (button1: Command, button2: Command)
      ensures this.button1 == button1 && this.button2 == button2
    {
      this.button1 := button1;
      this.button2 := button2;
    }

    /** `button1Pressed`: runs the first button's command and touches only its device. */
    method Button1Pressed()
      modifies Target(button1)
      ensures Done(button1)
    {
      Execute(button1);
    }

    /** `button2Pressed`: runs the second button's command and touches only its device. */
    method Button2Pressed()
      modifies Target(button2)
      ensures Done(button2)
    {
      Execute(button2);
    }
  }

  /**
    `CommandPatterns.main`: a lamp, a lock, their commands and three remotes
    (the lambda and method-reference buttons perform the same calls as the
    command objects); no button is pressed, so the lamp stays off and the lock
    unlocked.
  */
  method Demo() returns (lampOn: bool, locked: bool)
    ensures !lampOn && !locked
  {
    var smartLamp := new SmartLamp("Living Room Light");
    var smartLock := new SmartLock("Outer Door Lock");
    var lightOnCommand := LightOnCommand(smartLamp);
    var lockCommand := LockCommand(smartLock);
    var remoteControl := new RemoteControl(lightOnCommand, lockCommand);
    var remoteControl2 := new RemoteControl(LightOnCommand(smartLamp), LockCommand(smartLock));
    var remoteControl3 := new RemoteControl(LockCommand(smartLock), LightOnCommand(smartLamp));
    lampOn, locked := smartLamp.isOn, smartLock.isLocked;
  }
}

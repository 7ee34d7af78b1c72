/** The behaviours the package's tests check (app/app_test.go), replayed against the model:
    each method below builds a handle the way the tests do and asserts what they assert. */
module Scenarios {
  import Channels
  import Env
  import App

  /** Exit with a handler that panics, then with one that returns, then after Logger(). */
  method ExitScenario() {
    var a := new App.App([], false, App.Diverging, false);
    var trace := a.Exit(255);
    assert trace == [App.CallHandler(255)];

    a.exitHandler := App.Returning;
    trace := a.Exit(255);
    assert trace == [App.CallHandler(255), App.Panicked(App.ExitHandlerReturned)];

    a := new App.App([], false, App.Diverging, false);
    var l := a.Logger();
    trace := a.Exit(255);
    assert trace == [App.ShutdownLoggers, App.CallHandler(255)];
    assert !l.initialized && a.logger == null;
  }

  /** Exit without a handler terminates through os.Exit with the same code. */
  method ExitWithoutHandlerScenario() {
    var a := new App.App([], false, App.NoHandler, true);
    var trace := a.Exit(3);
    assert trace == [App.OsExit(3)];
  }

  /** Successive callers of Logger() all receive the identical instance. */
  method LoggerScenario() {
    var a := new App.App([], false, App.Diverging, false);
    var l1 := a.Logger();
    var l2 := a.Logger();
    var l3 := a.Logger();
    assert l1 == l2 == l3 && l1.initialized;
    l1.ShutdownLoggers();
    var l4 := a.Logger();
    assert l4 == l1 && !l4.initialized;
  }

  /** Successive callers of Errors() all receive the identical channel. */
  method ErrorsScenario() {
    var a := new App.App([], false, App.Diverging, false);
    var c1 := a.Errors();
    var c2 := a.Errors();
    assert c1 == c2;
    var r := c1.Receive();
    assert r == Channels.WouldBlock;
  }

  /** HandleError delivers once: one receive sees the error, the next sees nil and false,
      and a second HandleError panics. */
  method HandleErrorScenario() {
    var a := new App.App([], false, App.Diverging, false);
    var e := Channels.Err("test error");
    var o := a.HandleError(e);
    assert o == Channels.Done;

    var ch := a.Errors();
    var r := ch.Receive();
    assert r == Channels.Received(e, true);
    r := ch.Receive();
    assert r == Channels.Received(Channels.NilError, false);

    o := a.HandleError(e);
    assert o == Channels.Panic(Channels.SendOnClosed);
  }

  /** Lookups in a three-entry environment, before and after the context is cancelled. */
  method LookupEnvScenario() {
    var env := ["HOME=/home/test", "PATH=/bin", "TEST=true"];
    var a := new App.App(env, false, App.Diverging, false);

    var value, ok := a.LookupEnv("HOME");
    assert Env.Matches(env[0], "HOME", "/home/test");
    Env.DiffersFromKey(env[1], "HOME", 0);
    Env.DiffersFromKey(env[2], "HOME", 0);
    Env.UniqueKeyDetermined(env, "HOME", 0, "/home/test", value, ok);
    assert ok && value == "/home/test";

    value, ok := a.LookupEnv("PATH");
    assert Env.Matches(env[1], "PATH", "/bin");
    Env.DiffersFromKey(env[0], "PATH", 0);
    Env.DiffersFromKey(env[2], "PATH", 0);
    Env.UniqueKeyDetermined(env, "PATH", 1, "/bin", value, ok);
    assert ok && value == "/bin";

    value, ok := a.LookupEnv("FOOBAR");
    Env.DiffersFromKey(env[0], "FOOBAR", 0);
    Env.DiffersFromKey(env[1], "FOOBAR", 0);
    Env.DiffersFromKey(env[2], "FOOBAR", 0);
    assert !ok && value == "";

    a.contextCancelled := true;
    value, ok := a.LookupEnv("HOME");
    assert !ok && value == "";
  }
}

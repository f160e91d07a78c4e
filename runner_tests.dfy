/** The cases of pkg/runner/runner_test.go, run against the Loop model. */
module RunnerTests {
  import opened Wrappers
  import opened RunnerDef
  import opened Mock
  import opened Runner

  const Error1: MockedHit := MockedHit(0, 0, Some("error1"), false, false)
  const Error2: MockedHit := MockedHit(0, 0, Some("error2"), false, false)
  const Done: MockedHit := MockedHit(0, 0, None, false, false)
  const MoreDeferred: MockedHit := MockedHit(0, 0, None, false, true)

  method TestErrorsBeforeQuitting0() {
    var m := new MockedRunner.NewMocked([Error1, Error2, Done], 0);
    var loopHits, err := Loop(m, "errors-before-quitting-0", 0, 0);
    assert |loopHits.list| == 1;
    assert err == Some("error1");
  }

  method TestErrorsBeforeQuitting1() {
    var m := new MockedRunner.NewMocked([Error1, Error2, Done], 0);
    m.errorsBeforeQuitting := 1;
    assert Walk([Error1, Error2, Done], 1, 0, 1, 1) == 2;
    var loopHits, err := Loop(m, "errors-before-quitting-1", 0, 0);
    assert |loopHits.list| == 2;
    assert err == Some("error2");
  }

  method TestErrorsBeforeQuitting2() {
    var m := new MockedRunner.NewMocked([Error1, Error2, Done], 0);
    m.errorsBeforeQuitting := 2;
    assert Walk([Error1, Error2, Done], 2, 0, 2, 2) == 3;
    assert Walk([Error1, Error2, Done], 2, 0, 1, 1) == 3;
    var loopHits, err := Loop(m, "errors-before-quitting-2", 0, 0);
    assert |loopHits.list| == 3;
    assert err == None;
  }

  method TestMaxHitsPerLoop0() {
    var m := new MockedRunner.NewMocked([MoreDeferred, MoreDeferred, Done], 0);
    assert Walk([MoreDeferred, MoreDeferred, Done], 0, 0, 2, 0) == 3;
    assert Walk([MoreDeferred, MoreDeferred, Done], 0, 0, 1, 0) == 3;
    var loopHits, _ := Loop(m, "max-hits-per-loop-0", 0, 0);
    assert |loopHits.list| == 3;
  }

  method TestMaxHitsPerLoop1() {
    var m := new MockedRunner.NewMocked([MoreDeferred, MoreDeferred, Done], 1);
    var loopHits, _ := Loop(m, "max-hits-per-loop-1", 0, 0);
    assert |loopHits.list| == 1;
  }

  method TestMaxHitsPerLoop2() {
    var m := new MockedRunner.NewMocked([MoreDeferred, MoreDeferred, Done], 2);
    assert Walk([MoreDeferred, MoreDeferred, Done], 0, 2, 1, 0) == 2;
    var loopHits, _ := Loop(m, "max-hits-per-loop-2", 0, 0);
    assert |loopHits.list| == 2;
  }
}

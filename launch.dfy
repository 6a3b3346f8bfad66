/** The launcher: reads strictly positional options and builds the shell
    command that starts the run. */
module Launcher {

  datatype Option<T> = None | Some(value: T)

  const DefaultNbProcesses := "5"
  const DefaultNbPoints := "10"
  const Executable := "hello.exe"

  /** The usage case: `-h`, `-help`, or a single argument. */
  predicate IsUsage(argv: seq<string>)
  {
    |argv| >= 2 && (argv[1] == "-h" || argv[1] == "-help" || |argv| == 2)
  }

  /** The process count: `argv[2]` when `argv[1]` is `-n`. */
  function NbProcessesOf(argv: seq<string>): string
  {
    if |argv| >= 3 && argv[1] == "-n" then argv[2] else DefaultNbProcesses
  }

  /** The hostfile: `argv[4]` when there are at least five arguments and `argv[3]` is `-f`. */
  function HostfileOf(argv: seq<string>): string
  {
    if |argv| >= 5 && argv[3] == "-f" then argv[4] else ""
  }

  /** The point count: `argv[6]` when there are at least seven arguments and `argv[5]` is `-p`. */
  function NbPointsOf(argv: seq<string>): string
  {
    if |argv| >= 7 && argv[5] == "-p" then argv[6] else DefaultNbPoints
  }

  /** The message layer is bypassed only when `-n 0` is given. */
  predicate UsesMpi(argv: seq<string>)
  {
    !(|argv| >= 3 && argv[1] == "-n" && argv[2] == "0")
  }

  /** Parse `argv` (with `argv[0]` the program name) and build the command;
      the exit code is 1 in the usage case, when no command is built, and 0
      otherwise.  Running the command is not modelled. */
  method Launch(argv: seq<string>) returns (exitCode: int, cmd: Option<string>)
    ensures exitCode == (if IsUsage(argv) then 1 else 0)
    ensures cmd.None? <==> IsUsage(argv)
    ensures cmd.Some? && UsesMpi(argv) ==>
              cmd.value == "mpirun -np " + NbProcessesOf(argv) +
                           (if HostfileOf(argv) == "" then "" else " -f " + HostfileOf(argv)) +
                           " " + Executable + " " + NbPointsOf(argv)
    ensures cmd.Some? && !UsesMpi(argv) ==> cmd.value == Executable + " " + NbPointsOf(argv)
    ensures |argv| <= 1 ==> cmd == Some("mpirun -np 5 hello.exe 10")
  {
    var nbProcesses := DefaultNbProcesses;
    var hostfile := "";
    var exec := Executable;
    var nbPoints := DefaultNbPoints;
    var useMpi := true;

    var argc := |argv|;
    if argc >= 2 {
      var arg1 := argv[1];
      if arg1 == "-h" || arg1 == "-help" || argc == 2 {
        return 1, None;
      }
      var arg2 := argv[2];
      if arg1 == "-n" {
        nbProcesses := arg2;
        if nbProcesses == "0" {
          useMpi := false;
        }
      }
      if argc >= 5 {
        var arg3 := argv[3];
        var arg4 := argv[4];
        if arg3 == "-f" {
          hostfile := arg4;
        }
        if argc >= 7 {
          var arg5 := argv[5];
          var arg6 := argv[6];
          if arg5 == "-p" {
            nbPoints := arg6;
          }
        }
      }
    }

    assert nbProcesses == NbProcessesOf(argv) && hostfile == HostfileOf(argv);
    assert nbPoints == NbPointsOf(argv) && useMpi == UsesMpi(argv);
    var command: string;
    if useMpi {
      command := "mpirun -np " + nbProcesses;
      ghost var hostPart := if hostfile == "" then "" else " -f " + hostfile;
      if hostfile != "" {
        command := command + " -f " + hostfile;
      }
      assert command == "mpirun -np " + nbProcesses + hostPart;
      command := command + " " + exec;
      command := command + " " + nbPoints;
    } else {
      command := exec + " " + nbPoints;
    }
    if argc <= 1 {
      assert command == "mpirun -np " + "5" + " " + "hello.exe" + " " + "10";
      assert "mpirun -np " + "5" + " " + "hello.exe" + " " + "10" == "mpirun -np 5 hello.exe 10";
    }
    return 0, Some(command);
  }
}

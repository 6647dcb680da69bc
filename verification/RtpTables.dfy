/** The tables the worker ships with: backend/core/realtime_protection.py, lines
    178-337, 536-543 and 1506-1518. */
module RtpTables {
  import opened Text
  import opened RtpPlan
  import opened RtpSpec
  import opened RtpRuns
  import opened RtpPaths

  const CACHE_MAX: nat := 5000

  const WHITELISTED_PROCESSES: set<string> := {
    "system", "system idle process", "registry", "smss.exe", "csrss.exe", "wininit.exe", "winlogon.exe",
    "services.exe", "lsass.exe", "lsm.exe", "svchost.exe", "dwm.exe", "explorer.exe", "taskhostw.exe",
    "runtimebroker.exe", "searchhost.exe", "startmenuexperiencehost.exe", "shellexperiencehost.exe",
    "textinputhost.exe", "conhost.exe", "dllhost.exe", "sihost.exe", "fontdrvhost.exe", "ctfmon.exe",
    "audiodg.exe", "spoolsv.exe", "lsaiso.exe", "wbemiprvse.exe", "searchindexer.exe",
    "searchprotocolhost.exe", "searchfilterhost.exe", "wuauclt.exe", "wudfhost.exe", "wufaupd.exe",
    "trustedinstaller.exe", "tiworker.exe", "msiexec.exe", "msiexec", "dism.exe", "dismhost.exe",
    "wermgr.exe", "werhost.exe", "werfault.exe", "werfaultsecure.exe", "mscorsvw.exe", "ngen.exe",
    "clrjit.dll", "backgroundtaskhost.exe", "applicationframehost.exe", "wwahost.exe", "browser_broker.exe",
    "lockapp.exe", "usocoreworker.exe", "mousocoreworker.exe", "regsvr32.exe", "rundll32.exe", "mshta.exe",
    "taskeng.exe", "taskhost.exe", "msmpeng.exe", "nissrv.exe", "securityhealthservice.exe",
    "securityhealthsystray.exe", "mpcmdrun.exe", "antimalwareserviceexecutable.exe", "mdnsresponder.exe",
    "clamscan.exe", "clamd.exe", "clamav.exe", "freshclam.exe", "mbam.exe", "mbamservice.exe",
    "mbamscheduler.exe", "mbamupdater.exe", "avp.exe", "kavsvc.exe", "avgnt.exe", "avguard.exe",
    "bdagent.exe", "egui.exe", "mbae64.exe", "code.exe", "code - insiders.exe", "devenv.exe", "msdev.exe",
    "msbuild.exe", "csc.exe", "vbc.exe", "git.exe", "git-remote-https.exe", "node.exe", "npm.cmd",
    "npx.cmd", "dotnet.exe", "nuget.exe", "pip.exe", "pip3.exe", "notepad.exe", "notepad++.exe",
    "mspaint.exe", "calc.exe", "wordpad.exe", "winword.exe", "excel.exe", "powerpnt.exe", "outlook.exe",
    "onenote.exe", "teams.exe", "vlc.exe", "wmplayer.exe", "mpc-hc.exe", "mpc-be.exe", "spotify.exe",
    "discord.exe", "7z.exe", "7zfm.exe", "winrar.exe", "winzip64.exe", "java.exe", "javaw.exe",
    "javaws.exe", "acrobat.exe", "acrord32.exe", "python.exe", "pythonw.exe", "python3.exe",
    "sentinel_gpu_worker.exe", "sentinel_url_detonator.exe", "sentinel_agent.exe", "sentinel.exe"
  }

  const WHITELISTED_NAME_PREFIXES: seq<string> := ["microsoft.", "windows."]

  const LINUX_SKIP_PROCESSES: set<string> := {
    "systemd", "kthreadd", "ksoftirqd", "kworker", "rcu_gp", "rcu_par_gp", "rcu_sched", "migration",
    "cpuhp", "init", "bash", "sh", "dash", "zsh", "fish", "sshd", "cron", "atd", "dbus-daemon", "rsyslogd",
    "journald", "systemd-journald", "systemd-logind", "systemd-udevd", "systemd-resolved",
    "systemd-timesyncd", "networkd", "systemd-networkd", "agetty", "login", "polkitd", "accounts-daemon",
    "udisksd", "python", "python3", "python3.10", "python3.11", "python3.12"
  }

  const INTERNAL_HELPER_NAMES: set<string> := {
    "sentinel_gpu_worker.exe", "sentinel_url_detonator.exe", "sentinel_agent.exe"
  }

  const MAIN_PROCESS_NAMES: set<string> := {"sentinel.exe", "sentinel"}

  const LINUX_INSTALL_ROOTS: seq<string> := ["/usr/bin", "/usr/local/bin", "/usr/lib", "/opt", "/snap"]

  const WINDOWS_BROWSERS: map<string, BrowserRule> := map[
    "brave.exe" := BrowserRule(["brave software"], ["\\bravesoftware\\brave-browser\\application\\brave.exe"]),
    "chrome.exe" := BrowserRule(["google"], ["\\google\\chrome\\application\\chrome.exe"]),
    "msedge.exe" := BrowserRule(["microsoft"], ["\\microsoft\\edge\\application\\msedge.exe"]),
    "firefox.exe" := BrowserRule(["mozilla"], ["\\mozilla firefox\\firefox.exe"])
  ]

  const LINUX_BROWSERS: map<string, BrowserRule> := map[
    "brave-browser" := BrowserRule([], ["/opt/brave.com/brave/brave-browser", "/usr/bin/brave-browser"]),
    "google-chrome" := BrowserRule([], ["/opt/google/chrome/chrome", "/usr/bin/google-chrome"]),
    "microsoft-edge" := BrowserRule([], ["/opt/microsoft/msedge/msedge", "/usr/bin/microsoft-edge"]),
    "firefox" := BrowserRule([], ["/usr/lib/firefox/firefox", "/usr/bin/firefox", "/snap/firefox/"])
  ]

  /** The install roots and the Windows directory come from the environment. */
  function WindowsPolicy(installRoots: seq<string>, systemRoot: string): Policy {
    Policy(true, CACHE_MAX, WHITELISTED_PROCESSES, WHITELISTED_NAME_PREFIXES, LINUX_SKIP_PROCESSES,
           INTERNAL_HELPER_NAMES, MAIN_PROCESS_NAMES, WINDOWS_BROWSERS, installRoots, systemRoot, "\\")
  }

  function LinuxPolicy(): Policy {
    Policy(false, CACHE_MAX, WHITELISTED_PROCESSES, WHITELISTED_NAME_PREFIXES, LINUX_SKIP_PROCESSES,
           INTERNAL_HELPER_NAMES, MAIN_PROCESS_NAMES, LINUX_BROWSERS, LINUX_INSTALL_ROOTS, "", "/")
  }

  lemma HelperNamesAreWhitelisted()
    ensures INTERNAL_HELPER_NAMES <= WHITELISTED_PROCESSES
  {
  }

  /** On Windows the shipped whitelist already holds every helper name, so the
      helper check of the event loop is never reached with a positive answer. */
  lemma WindowsNeverReachesTrustedHelpers(installRoots: seq<string>, systemRoot: string, e: Event)
    ensures
      var policy := WindowsPolicy(installRoots, systemRoot);
      Admitted(policy, e) ==> !Trusted(policy, e) && Inspected(policy, e)
  {
  }

  /** With the shipped tables no run keeps more than 5000 scans. */
  lemma ShippedCachesStayBounded(installRoots: seq<string>, systemRoot: string, es: seq<Event>)
    ensures |Run(WindowsPolicy(installRoots, systemRoot), es).cache.order| <= 5000
    ensures |Run(LinuxPolicy(), es).cache.order| <= 5000
  {
    CacheStaysBounded(WindowsPolicy(installRoots, systemRoot), es);
    CacheStaysBounded(LinuxPolicy(), es);
  }

  lemma OneLetterIsOrdinary()
    ensures Lower("x") == "x" && Ordinary(LinuxPolicy(), "x")
  {
    assert Lower("x") == "x";
    assert WithoutExe("x") == "x";
  }

  /** On Linux the shipped worker may kill one file's process for another file's
      verdict, over some paths, exactly if two of them differ in case only. */
  lemma ShippedKillsAreOfOwnFileIff(paths: iset<string>)
    requires "" !in paths
    ensures OwnFileAlways(LinuxPolicy(), paths) <==> NoTwins(paths)
  {
    OneLetterIsOrdinary();
    OwnFileIffNoTwins(LinuxPolicy(), paths, "x");
  }
}
